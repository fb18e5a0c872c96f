# one-env core, modelled in Dafny

one-env brings up a Onedata deployment (onezone, oneprovider, oneclient pods) on Kubernetes with helm. It can also make the pods run Erlang releases compiled on the host ("sources mode"). Under the kubectl, helm, rsync and docker calls lies a layer of deterministic bookkeeping, and this project models that layer and proves properties of it. The layer covers:

- **Topology resolution.** User node names `node-N` become pod ordinals `n(N-1)`. The cluster layout and the users, groups and spaces are rewritten for the chart (`ConfigParser`). Each application of each node is deployed from a package or from located sources, and the sources values are rewritten to match (`ConfigGenerator`). The rest of this layer is the per-application attribute tables (`Application`) and the naming conventions for pods, releases and paths (`NamesAndPaths`).
- **Config text.** The overlay.config term `[ {onepanel, [ {Key, "Val"}, ... ]} ].` is written line by line (`Overlay`). Every `{Key, ...}` term of an app.config is patched, as an explicit per-line scan (`DeployNode`).
- **Deployment state.** The deployment record is merged right-biased (`DeploymentData`, a class). The directory of deployments is kept in name order and pruned (`DeploymentsDir`, a class). Source trees are located, and their recorded locations are read back with package-mode fallbacks (`SourcesPaths`, and the older revision `LegacySources`).
- **Sync planning.** Every pod gets an ordered plan of abstract commands (`Sync`): the rsync of four directories per source, the overlay copy, the panel's app.config patch, and last the sentinel write. `run_scenario` is modelled as the sequence of steps it takes (`ScenarioRunner`).
- **Command builders and matchers.** The kubectl, rsync, helm and docker argument vectors are built exactly (`Pods`, `Helm`, `Docker`). Pods are matched with `-` as a wildcard, stateful-set pods are filtered, and oneclient pods are numbered (`KubernetesUtils`, `StatefulSets`, `Pods`).
- **Small decision procedures.**
  - the environment-config overlay (`EnvConfig`);
  - the branch-config fallback (`BranchConfig`);
  - the artifact path and the specific-then-default download chain (`DownloadArtifact`);
  - the helm `--set` values and the `main` dispatch of `onenv upgrade` (`Upgrade`);
  - the landscape patch (`Patch`);
  - the two /etc/hosts rewriters (`Hosts`, `UpdateHosts`);
  - the argparse help default (`HelpFormatter`);
  - the general helpers (`Common`).

Helper modules support the rest:

- `Util`: the failure datatypes, standing for exceptions and `sys.exit` codes, and Python's string operations.
- `Paths`: `os.path` on a POSIX host.
- `Yaml`: loaded YAML values and dict access along key paths. `Yaml.Doc` is the class whose root the scripts update in place.
- `Disk`: a `FileSystem` class holding file texts and directories.
- `Order`: Python's `str` order and a stable sort.
- `Artifacts`: constants.

The model keeps the form of each script. Pure code becomes functions. Code that builds lists or dicts step by step becomes methods with loops, and each method is proved equal to a specifying function whose properties are proved as lemmas. Objects that update their state become classes with `modifies` clauses. Every effect on the outside world becomes a parameter or an abstract command in a returned plan. This covers the cluster listing, the exit codes of commands, file tests, `locate`, the working directory, the clock, the random generator, and regex engines where the pattern is a regex. Exceptions and `exit(n)` become `Fail(...)` results.

Two details of the code as written:

- The service-wide override rewrite in `generate_nodes_config` is decided by the last (node, app) pair processed. Line 66 of config_generator.py reassigns the flag on every iteration, so the rewrite does not happen whenever any source lies outside the home directory.
- "Inside the home directory" is the literal prefix `/home`, not the host home directory.

## Model

| member | source | states |
|---|---|---|
| NamesAndPaths.GenPodNameOfNode | scripts/utils/names_and_paths.py:60-63 | a node named `n` + k gives the pod name release-service-k |
| NamesAndPaths.RelSourcesDir | scripts/utils/names_and_paths.py:66-67 | the release directory `_build/default/rel/<app with _ for ->` |
| NamesAndPaths.RelStartScriptFile | scripts/utils/names_and_paths.py:70-71 | the start script is `bin/<app with _>` inside the release directory |
| NamesAndPaths.RelLogsDir | scripts/utils/names_and_paths.py:78-79 | the log directory is `log` inside the release directory |
| NamesAndPaths.AbsLogsDir | scripts/utils/names_and_paths.py:82-83 | a package installation logs to `/var/log/<app with _>` |
| NamesAndPaths.UnderscoredPlain | scripts/utils/names_and_paths.py:67 | an application name with `-` replaced by `_` holds no `/`, so joining it adds one component |
| NamesAndPaths.ServiceAndAppTypeToApp | scripts/utils/names_and_paths.py:50-87 | a lookup succeeds exactly for the six (service, app type) pairs and is a KeyError otherwise; the cluster-manager type always gives cluster-manager, and the app is a onezone app exactly when the service is onezone or the app is cluster-manager |
| NamesAndPaths.FirstContained | scripts/utils/names_and_paths.py:90-92 | the value of the first table entry whose key occurs in the name; None exactly when no key occurs |
| NamesAndPaths.MappingOfTable | scripts/utils/names_and_paths.py:40-48 | an exact-key lookup of each table key gives its table value |
| NamesAndPaths.MappingInvolution | scripts/utils/names_and_paths.py:40-48 | the mapping swaps each provider's city alias with its ordinal alias and fixes onezone alone |
| NamesAndPaths.FirstContainedSkip | scripts/utils/names_and_paths.py:91-92 | a first entry whose key does not occur is skipped |
| NamesAndPaths.AliasOfOrdinalName | scripts/utils/names_and_paths.py:90-92 | any name `oneprovider-1` followed by digits (for instance `oneprovider-12`) maps to `oneprovider-krakow`, since substring matching takes the first key that occurs |
| NamesAndPaths.CityKeyNotInOrdinalName | scripts/utils/names_and_paths.py:41-43 | no city key occurs in `oneprovider-1` followed by digits |
| NamesAndPaths.ImportFrom | scripts/utils/deployment/sources.py:22-23 | `from names_and_paths import (...)` succeeds exactly when the module binds every name listed; otherwise it is an ImportError naming the first name, in import order, that the module does not bind |
| NamesAndPaths.FirstMissingShift | scripts/utils/deployment/sources.py:22-23 | when the first name is bound, the first missing name of the rest is the first missing name of the whole import |
| NamesAndPaths.ImportFailsAt | scripts/utils/deployment/sources.py:22-23 | the import fails with an ImportError naming the name at k when that name is the first the module does not bind |
| NamesAndPaths.SourcesPathsImportFails | scripts/utils/deployment/sources_paths.py:17-22 | as written, the sources_paths import fails with an ImportError for SERVICE_ONECLIENT, which names_and_paths.py does not bind |
| NamesAndPaths.SourcesImportFails | scripts/utils/deployment/sources.py:22-23 | as written, the sources import fails with an ImportError for SERVICE_ONECLIENT |
| NamesAndPaths.ConfigParserImportFails | scripts/utils/deployment/config_parser.py:15-17 | as written, the config_parser import fails with an ImportError for get_service_type |
| NamesAndPaths.UpgradeImportSucceeds | scripts/onenv_upgrade.py:27 | the upgrade script imports only ONEDATA_3P, which the module binds, so the import succeeds |
| NamesAndPaths.OtherImportsSucceed | scripts/utils/deployment/config_generator.py:16 | the config_generator, node and scenario_runner imports name only names the module binds, so they succeed |
| NamesAndPaths.ImportsWithSupplied | scripts/utils/names_and_paths.py:1-92 | the names the model supplies are exactly ones the module lacks and the failing scripts import; with them bound, all three failing imports succeed |
| Application.DefaultKeysOf | scripts/utils/deployment/application.py:40-47 | `default_config(name)` has the attributes of the name's kind: cluster manager, worker, panel, or none for an unknown name |
| Application.ClusterManagerKeys | scripts/utils/deployment/application.py:41 | the cluster manager's table is the env file, the four files and the four commands, in that order |
| Application.WorkerKeys | scripts/utils/deployment/application.py:42-43 | a worker's table is the three web entries, the four files and the four commands |
| Application.PanelKeys | scripts/utils/deployment/application.py:44-45 | a panel's table is the four commands and then the four files |
| Application.KindKeysFacts | scripts/utils/deployment/application.py:16-46 | no attribute twice; an empty table exactly for an unknown name; only the cluster manager has the env file; only workers have the web key, web cert and CA directory; every known kind has `cmd` and `app_config_file` |
| Application.DefaultConfigKeys | scripts/utils/deployment/application.py:15-47 | the same facts stated about `default_config(name)` itself |
| Application.FilesLookups | scripts/utils/deployment/application.py:20-25 | the file attributes and their paths `/var/lib/<n>/app.config`, `/etc/<n>/overlay.config`, `/etc/<n>/vm.args` |
| Application.CmdsLookups | scripts/utils/deployment/application.py:33-38 | the command attributes and the start command `service <n> start` |
| Application.DefaultConfigPaths | scripts/utils/deployment/application.py:15-47 | for every known kind the package paths are the fixed absolute paths under the name, and the start command is `service <n> start` |
| Application.PanelPackagePaths | scripts/utils/deployment/application.py:44-45 | the panel's table, commands first, still has the package paths |
| Application.SourceConfig | scripts/utils/deployment/application.py:65-85 | the comprehension keeps every default attribute, in order, each mapped to its release-relative path joined onto the release path |
| Application.NewApplication | scripts/utils/deployment/application.py:52-85 | the name has `-` replaced by `_`; with no project path the config is the default table and there is no release path; otherwise the release is `<home>/<project>/_build/default/rel/<name>` and the config has the default attributes, each under the release |
| Application.SourceAppConfigFile | scripts/utils/deployment/application.py:67-85 | a source-mode app config is `data/app.config` under the release path |
| Application.GetSourceConfig | scripts/utils/deployment/application.py:82-85 | looking up an attribute in the source-mode table gives its release path exactly when it is a default attribute |
| Application.ReleasePathBelowHome | scripts/utils/deployment/application.py:60-63 | for a normal home directory and a relative project path the release path is home, then project, then `_build/default/rel/<name>` |
| DeployNode.LastIndex | scripts/utils/common.py:43 | the position of the last `}` of a line, where the greedy `.*}` of the pattern ends its match; None exactly when there is none |
| DeployNode.PatchLineSpec | scripts/utils/common.py:43 | a line without a `{<key>, ` followed later by `}` is unchanged; otherwise exactly the span from the first tag to the last `}` is rewritten |
| DeployNode.PatchLineAt | scripts/utils/common.py:43 | where the tag and a later `}` are found, the span between them is replaced by `{<key>, "<val>"}` |
| DeployNode.RewrittenShape | scripts/utils/deployment/node.py:26-27 | the rewritten line is the text before the tag, the new term and a tail without `}` |
| DeployNode.FirstTagKept | scripts/utils/common.py:43 | a rewritten line still has its first tag where the replacement starts |
| DeployNode.RewriteFixed | scripts/utils/common.py:43 | the line rewritten over the span chosen is left alone by a second rewrite |
| DeployNode.PatchLineIdempotent | scripts/utils/deployment/node.py:26-27 | rewriting a rewritten line changes nothing more, when the value has no `}` |
| DeployNode.PatchLineNoNewline | scripts/utils/deployment/node.py:26-27 | the rewrite adds no newline when the value has none |
| DeployNode.PatchLines | scripts/utils/common.py:43 | every line is rewritten on its own, and the number of lines is kept |
| DeployNode.PatchTextLines | scripts/utils/common.py:40-46 | the substitution over a file keeps its lines: line i of the result is line i of the input, rewritten |
| DeployNode.PatchTextIdempotent | scripts/utils/common.py:40-46 | substituting into the substituted text changes nothing, when the value holds no `}` and no newline |
| DeployNode.PatchAllSnoc | scripts/utils/deployment/node.py:24-27 | patching one more attribute applies its substitution to the text patched so far |
| DeployNode.ModifyAppConfig | scripts/utils/deployment/node.py:20-27 | an app without attributes never opens the file; a missing file fails with FileNotFoundError on the first attribute, nothing changed; otherwise the file is patched attribute by attribute, in the config's order, and only that file changes |
| DeployNode.NodePaths | scripts/utils/deployment/node.py:38-41 | below a normal deployment directory the service dir, the node dir and `app.config` are one component deeper each |
| DeployNode.FirstPanel | scripts/utils/deployment/node.py:44 | the index of the first app whose name contains `panel`; None exactly when there is none |
| DeployNode.CopyTarget | scripts/utils/deployment/node.py:52-53 | copying the panel's `data/app.config` into the node dir writes the node's `app.config` |
| DeployNode.ModifyNodeAppConfig | scripts/utils/deployment/node.py:43-56 | with no panel the call is StopIteration and nothing changes; otherwise the node dir is created with its ancestors (a FileExistsError when it is a file, a NotADirectoryError when an ancestor is, and then nothing changes), the sourced panel's app.config copied in (FileNotFoundError if it is missing) and every app patched in list order |
| DeployNode.PatchNodeApps | scripts/utils/deployment/node.py:55-56 | the loop over the apps gives the result and files PatchApps specifies |
| DeployNode.PatchOneApp | scripts/utils/deployment/node.py:56 | one app patched: a failure ends the loop with its error, a success leaves the rest of the loop to do |
| DeployNode.PatchAppsFrame | scripts/utils/deployment/node.py:55-56 | patching touches no file but the node's app.config |
| DeployNode.PatchAppsPresent | scripts/utils/deployment/node.py:55-56 | when the app.config exists every app's patch succeeds, and the file becomes its text patched by each app in turn |
| DeployNode.NodeConfigFromSources | scripts/utils/deployment/node.py:43-56 | with a sourced panel whose app.config exists, a node dir that cannot be created is makedirs' error with no file changed; otherwise the node's app.config becomes that file patched by every app in order, and no other file changes |
| Overlay.EntryLines | scripts/environment/node.py:38-42 | one line per attribute, in dict order |
| Overlay.WriteEntries | scripts/environment/node.py:38-42 | the loop appends one comma-terminated `{attr, "val"}` line per attribute, under the app-prefixed name unless the app is a panel |
| Overlay.WriteAppLines | scripts/environment/node.py:36-55 | an app that is not last gets its entries and a blank line; a last app without attributes is an IndexError with the file untouched |
| Overlay.WriteBlocks | scripts/environment/node.py:26-27 | every app but the last is appended as its block of entries and a blank line |
| Overlay.WriteLastApp | scripts/environment/node.py:28-55 | the last app's entries, the final one without a comma, then the closing `]}` and `].`; IndexError on an app without attributes |
| Overlay.WriteHeader | scripts/environment/node.py:19-24 | the file is truncated and gets the `[` and `{onepanel, [` lines |
| Overlay.WriteApps | scripts/environment/node.py:25-33 | after the header the file becomes OverlayOutput: the blocks, the last app and the footer, or an IndexError for an empty app list |
| Overlay.WriteOverlay | scripts/environment/node.py:13-33 | a missing service directory is a FileNotFoundError and nothing changes; otherwise `<dir>/<service>/overlay.config` is written with the whole term |
| Overlay.Named | scripts/environment/node.py:40-41 | each attribute keeps its value and gets the name written for the app |
| Overlay.Flat | scripts/environment/node.py:26-29 | every attribute of every app, in app order and then dict order |
| Overlay.BlockEntries | scripts/environment/node.py:26-43 | the blocks hold exactly the comma-terminated entries of their apps, in order, plus one blank line per app |
| Overlay.LastAppEntries | scripts/environment/node.py:44-55 | the last app's lines are its entries as a comma-separated list with no comma after the last |
| Overlay.BodyEntries | scripts/environment/node.py:26-29 | a complete file lists every attribute once, in app order then dict order, all but the very last followed by a comma, with one blank line after each app but the last |
| Overlay.OverlayFrame | scripts/environment/node.py:19-33 | a complete file succeeds, opens with `[` and `{onepanel, [` and closes with `]}` and `].` |
| ConfigParser.ParseNodeNum | scripts/utils/deployment/config_parser.py:76-82 | succeeds exactly when the name without its `node-` parts reads as an integer (a ValueError otherwise), and the result reads back as that integer minus one |
| ConfigParser.ParseIntOfInt | scripts/utils/deployment/config_parser.py:80-82 | printing an integer and reading it back gives the integer |
| ConfigParser.NodeNameOfUserName | scripts/utils/deployment/config_parser.py:70-82 | `node-K` (and a bare `K`) gives node number K - 1 and chart name `n` followed by K - 1 |
| ConfigParser.NodeNameInjective | scripts/utils/deployment/config_parser.py:70-73 | distinct user nodes get distinct chart names |
| ConfigParser.UserNodeToPod | scripts/utils/deployment/config_parser.py:70-73 | the chart name of `node-K` names the pod `<release>-<service>-(K-1)`, and the node number read back from that pod name is K - 1 again |
| ConfigParser.ListedNames | scripts/utils/deployment/config_parser.py:86-87 | the values the roles of the layout yield, as a set: a list's items, a string's characters, a dict's keys; a role that is not iterable, or a yielded list or dict, is a TypeError |
| ConfigParser.RoleMembers | scripts/utils/deployment/config_parser.py:86-87 | what iterating a role yields: exactly a list's items, a string's one-character strings or a dict's keys; nothing for any other value, which is not iterable |
| ConfigParser.GetNodesDict | scripts/utils/deployment/config_parser.py:85-89 | one empty entry per distinct chart name of the values the roles of `clusterConfig` yield, and no other; an absent `clusterConfig` gives {}; a `clusterConfig` that is not a dict, or a yielded value that is not a string, is an AttributeError; a role that is not iterable or yields a list or dict is a TypeError; among yielded strings, one that does not parse is a ValueError; the call succeeds exactly when every yielded value is a string that parses |
| ConfigParser.NodesDictOfUserNodes | scripts/utils/deployment/config_parser.py:85-89 | a layout whose roles yield `node-K` has the entry `n(K-1)` |
| ConfigParser.NodesDictOfDigitRole | scripts/utils/deployment/config_parser.py:85-89 | a role written as a string of digits yields one node per character: the digit `c` gives the entry `n(c-1)` |
| ConfigParser.Len | scripts/utils/deployment/config_parser.py:234 | `len` of a list is its length and of a dict its number of keys |
| ConfigParser.NodesNumStored | scripts/utils/deployment/config_parser.py:231-234 | `<type>_nodes_count` becomes max(len(nodes), 1), so at least 1; it fails exactly when the service's values are missing or not a dict or `nodes` has no length; every other path is kept |
| ConfigParser.SetPath3 | scripts/utils/deployment/config_parser.py:234 | a three-key path can be written exactly when its first two keys lead to a dict |
| ConfigParser.SetNodesNum | scripts/utils/deployment/config_parser.py:231-234 | the configuration document becomes the one NodesNum specifies, and is unchanged on failure |
| ConfigParser.RoleNums | scripts/utils/deployment/config_parser.py:241-242 | one node number per value the role yields, in the same order; a role that is not iterable is a TypeError; otherwise it fails exactly when a value does not parse, with the error of the first such value |
| ConfigParser.NodeNumValue | scripts/utils/deployment/config_parser.py:74-80 | a yielded value that is not a string is an AttributeError (it has no `replace`); a string succeeds exactly when parse_node_num reads it, otherwise it is a ValueError |
| ConfigParser.Elements | scripts/utils/deployment/config_parser.py:240-242 | the values `for node_name in nodes_list` visits, in order: a list's items, a string's characters, a dict's keys in dict order; a value that is not iterable is a TypeError; as a set they are the role's members |
| ConfigParser.ClusterConfigOf | scripts/utils/deployment/config_parser.py:240-242 | after the roles read so far, in dict order, the parsed layout holds exactly those of them that the layout has, each with its node numbers; it fails exactly when one of them fails, with the error of the first that does |
| ConfigParser.ClusterConfigOfPrefixFail | scripts/utils/deployment/config_parser.py:240-242 | once a role has failed, reading further roles raises the same error |
| ConfigParser.ParseClusterConfig | scripts/utils/deployment/config_parser.py:237-242 | on success the values document becomes the one ClusterConfig specifies, and a failure raises ClusterConfig's error; a failing parse of a values dict leaves it with only `cluster_config` replaced, by the roles before the failing one in dict order, each already parsed; a values document that is not a dict is left alone |
| ConfigParser.ParseRoles | scripts/utils/deployment/config_parser.py:240-242 | the loop over the roles in dict order computes ClusterConfigOf; the roles stored when it ends are every role of the layout on success and, on a failure, exactly the roles before the failing one, each parsed |
| ConfigParser.ParseRoleSeq | scripts/utils/deployment/config_parser.py:240-242 | the loop over whatever order is given computes ClusterConfigOf over it, keeping the roles parsed before a failure |
| ConfigParser.ClusterConfigKeys | scripts/utils/deployment/config_parser.py:240-242 | a layout read in full, in dict order, has exactly the layout's roles |
| ConfigParser.ClusterConfigEffect | scripts/utils/deployment/config_parser.py:237-242 | nothing changes for a falsy layout; otherwise `cluster_config` has the layout's roles, each with one entry per value the role yields (list items, string characters, dict keys), in the same order, each the node number of that value, and no other key of the values changes |
| ConfigParser.AddSourcesEffect | scripts/utils/deployment/config_parser.py:222-228 | every listed node gets n0's entry, the others keep theirs, nothing outside the node entries changes, and a missing `n0` is a KeyError |
| ConfigParser.WithEntriesEffect | scripts/utils/deployment/config_parser.py:227-228 | the keys are the old keys plus the listed names; listed nodes hold the entry and the others keep theirs |
| ConfigParser.AddSourcesForNodes | scripts/utils/deployment/config_parser.py:222-228 | the sources document becomes the one AddSources specifies, and is unchanged on failure |
| ConfigParser.SourceList | scripts/utils/deployment/config_parser.py:218 | each source becomes `{'name': s}`, in order |
| ConfigParser.CustomNodesOk | scripts/utils/deployment/config_parser.py:216-219 | every user node of a successful parse has a chart name and a source list |
| ConfigParser.CustomNodesKeys | scripts/utils/deployment/config_parser.py:216-219 | a chart name is a user entry exactly when some user node's name parses to it |
| ConfigParser.CustomNodesLast | scripts/utils/deployment/config_parser.py:216-219 | a user node that no later node overrides has its own sources |
| ConfigParser.CustomNodesFirstFail | scripts/utils/deployment/config_parser.py:216-219 | the user's nodes stop at the first node that fails, with its error |
| ConfigParser.CustomSourcesEffect | scripts/utils/deployment/config_parser.py:199-219 | every earlier node entry is reset to {}; each user node `node-K` sets `n(K-1)` to its source list, a later node winning; no other node appears |
| ConfigParser.ResetOverridden | scripts/utils/deployment/config_parser.py:203-219 | the earlier entries reset to {} and then overridden by the user's nodes have that effect |
| ConfigParser.CustomSourcesAfter | scripts/utils/deployment/config_parser.py:203-219 | the node entries afterwards are the earlier ones reset to {}, then the user's |
| ConfigParser.StoredNodesOk | scripts/utils/deployment/config_parser.py:216-219 | when every user node parses, the nodes stored are exactly the user's nodes |
| ConfigParser.StoredNodesFirstFail | scripts/utils/deployment/config_parser.py:216-219 | the nodes stored stop at the first node that fails: they are the user's nodes before it |
| ConfigParser.CustomSourcesLeftEffect | scripts/utils/deployment/config_parser.py:203-219 | on success the document left is the new one; once the node entries are reached, whether or not the call raises, every earlier entry is still there, those not stored from the user's nodes are {}, and nothing outside the entries changes |
| ConfigParser.CustomSourcesOutcome | scripts/utils/deployment/config_parser.py:214-219 | once the node entries are reached, the call raises the user lookup's error, an AttributeError for a truthy non-dict configuration, or the first failing node's error, and succeeds otherwise |
| ConfigParser.ParseCustomSourcesForOzOp | scripts/utils/deployment/config_parser.py:199-219 | the call raises exactly the error CustomSources gives; whether it raises or not the sources document is left as CustomSourcesLeft says: the node entries reset and holding the user's nodes stored before the failure |
| ConfigParser.AddUserNodes | scripts/utils/deployment/config_parser.py:216-219 | the loop over the user's nodes adds their entries on top of the reset ones, or fails with the first failing node's error; the entries it leaves hold the nodes stored before that node |
| ConfigParser.LastPart | scripts/utils/deployment/config_parser.py:280 | what follows the last `-` of an alias holds no `-` |
| ConfigParser.LumaEntry | scripts/utils/deployment/config_parser.py:277-282 | a provider entry loses `provider` and gets `name`, the last part of the alias of the first mapping key found in the provider; a non-dict entry is an AttributeError; a provider `in` cannot search (missing, a number, a boolean) is a TypeError, one in which no key is found an AttributeError; a list or dict provider is searched among its items or keys; for a string provider the alias is the one ServiceNameToAlias gives |
| ConfigParser.ParseUserLumaCfg | scripts/utils/deployment/config_parser.py:266-283 | the loop computes LumaValue |
| ConfigParser.LumaValueEffect | scripts/utils/deployment/config_parser.py:275-283 | the parsed list has one entry per provider, in order, each parsed by LumaEntry |
| ConfigParser.UserIdps | scripts/utils/deployment/config_parser.py:300-310 | a user keeps truthy identity providers; otherwise it gets the onepanel provider, mode `rest` exactly when patching, enabled, with the user's type or `regular`; every key but `idps` and `luma` is kept |
| ConfigParser.UsersConfigEffect | scripts/utils/deployment/config_parser.py:297-311 | False gives users []; a list keeps its length and order, each user parsed by ParseUser |
| ConfigParser.ParseUsersConfig | scripts/utils/deployment/config_parser.py:286-311 | the values document becomes the one UsersConfig specifies, and is unchanged on failure |
| ConfigParser.GroupEntry | scripts/utils/deployment/config_parser.py:256-262 | a group succeeds exactly when it is a dict; one without truthy identity providers gets the onezone one |
| ConfigParser.GroupsFalseOverwritten | scripts/utils/deployment/config_parser.py:253-263 | as written, disabling groups with False leaves `groups` False rather than [] |
| ConfigParser.GroupsConfigEffect | scripts/utils/deployment/config_parser.py:253-263 | the corrected step stores [] for False, agrees with the code as written on every other input, and gives each listed group without identity providers the onezone one |
| ConfigParser.ParseGroupsConfig | scripts/utils/deployment/config_parser.py:246-263 | the values document becomes the one GroupsConfigAsWritten specifies, so `groups` is False after disabling groups, and is unchanged on failure |
| ConfigParser.SupportEntry | scripts/utils/deployment/config_parser.py:323-325 | a support's provider becomes the last part of the alias of the first mapping key found in it; a non-dict support is a TypeError, a missing provider a KeyError; a provider `in` cannot search (a number, a boolean, None) is a TypeError, one in which no key is found an AttributeError; a list or dict provider is searched among its items or keys; for a string provider the alias is the one ServiceNameToAlias gives |
| ConfigParser.In | scripts/utils/names_and_paths.py:92 | `key in v` is a substring test on a string, an item test on a list and a key test on a dict; any other value is a TypeError |
| ConfigParser.AliasIn | scripts/utils/names_and_paths.py:90-92 | the value of the first mapping key, in order, that `in` finds in the name, None when it finds none; a name `in` cannot search is a TypeError at the first key; for a string it is the substring search ServiceNameToAlias does |
| ConfigParser.SupportEntryOfAlias | scripts/utils/deployment/config_parser.py:324-325 | a provider with an alias is accepted; `oneprovider-1` becomes `krakow` |
| ConfigParser.SpaceEffect | scripts/utils/deployment/config_parser.py:320-325 | a parsed space keeps every key but `user` and `supports`, copies a truthy owner to `user`, and has one parsed support per support, in order |
| ConfigParser.SpacesConfigEffect | scripts/utils/deployment/config_parser.py:315-326 | False gives spaces []; other non-lists leave the configuration alone; a list keeps its length and order, each space parsed |
| ConfigParser.ParseSpace | scripts/utils/deployment/config_parser.py:320-325 | the loop over one space's supports computes SpaceEntry |
| ConfigParser.ParseSpaces | scripts/utils/deployment/config_parser.py:320-325 | the loop over the spaces computes each space in order, stopping at the first failure |
| ConfigParser.ParseSpacesCfg | scripts/utils/deployment/config_parser.py:315-326 | the configuration document becomes the one SpacesConfig specifies, and is unchanged on failure |
| ConfigParser.ReleaseNameOverrideEffect | scripts/utils/deployment/config_parser.py:30-33 | the release name lands in `global` next to the other global settings, which are kept, as is every other key; a `global` that is not a dict is a TypeError |
| ConfigParser.SetReleaseNameOverride | scripts/utils/deployment/config_parser.py:30-33 | the configuration document becomes the one ReleaseNameOverride specifies, and is unchanged on failure |
| ConfigGenerator.ListsAppIff | scripts/utils/deployment/config_generator.py:30-31 | the search answers true exactly when some source entry is named the app |
| ConfigGenerator.GenerateAppConfigCases | scripts/utils/deployment/config_generator.py:22-45 | sources off or the app not listed gives '' and False; a locator that raises ends the call with its exception; a located path under the literal `/home` gives the path relative to the host home directory and False; any other gives the absolute path and True |
| ConfigGenerator.LocateAsWritten | scripts/utils/deployment/config_generator.py:32 | `sources.locate` as written: sources.py binds no `locate`, so every lookup raises an AttributeError |
| ConfigGenerator.GenerateAppConfigAsWritten | scripts/utils/deployment/config_generator.py:28-45 | as written, with sources on and the app listed the call raises that AttributeError; sources off or the app not listed still gives '' and False; so a result is always '' and False |
| ConfigGenerator.AbsPathIsAbs | scripts/utils/deployment/config_generator.py:32-33 | the located path, made absolute against an absolute working directory, is absolute |
| ConfigGenerator.ProjectIsLocated | scripts/utils/deployment/config_generator.py:32-80 | with a locator that returns a location (the intended `sources.locate`), either way the Application's project is where the sources were located: a home-relative path joins back onto the home directory, an absolute one onto `/` unchanged |
| ConfigGenerator.ServiceApps | scripts/utils/deployment/config_generator.py:54-57 | the onezone apps exactly when the service name contains `onezone`, the oneprovider apps otherwise; cluster-manager always |
| ConfigGenerator.GenerateAppsStep | scripts/utils/deployment/config_generator.py:65-82 | one more app adds its Application and its sources entry after those of the apps before it |
| ConfigGenerator.GenerateAppsLength | scripts/utils/deployment/config_generator.py:65-82 | a node gets one Application and one sources entry per app |
| ConfigGenerator.GenerateAppsAt | scripts/utils/deployment/config_generator.py:65-82 | the i-th Application and sources entry are those of the i-th app |
| ConfigGenerator.GenerateAppsEach | scripts/utils/deployment/config_generator.py:65-82 | exactly one Application and one sources entry per app, in order, each Application rooted at `/` when its own flag is set and at the home directory otherwise |
| ConfigGenerator.GenerateAppsFlag | scripts/utils/deployment/config_generator.py:66 | the flag left after a node's apps is that of its last app, or the incoming one when there is none |
| ConfigGenerator.GenerateAppsFlagIndependent | scripts/utils/deployment/config_generator.py:66 | the incoming flag matters only when there is no app |
| ConfigGenerator.GenerateAppsSnoc | scripts/utils/deployment/config_generator.py:65-82 | the loop after i apps is the loop after i - 1 apps and the i-th app's config |
| ConfigGenerator.GenerateAppsFirstFail | scripts/utils/deployment/config_generator.py:65-71 | the loop fails with the error of the first app whose config fails |
| ConfigGenerator.GenerateNodeApps | scripts/utils/deployment/config_generator.py:65-82 | the apps loop of one node computes GenerateApps |
| ConfigGenerator.GenerateNextApp | scripts/utils/deployment/config_generator.py:66-82 | one round adds the i-th app's Application and entry on top of the apps before it; a failure is that of the whole loop |
| ConfigGenerator.GenerateNodesStep | scripts/utils/deployment/config_generator.py:60-86 | one more node adds its Node and its sources value on top of the nodes before it |
| ConfigGenerator.GenerateNodesKeys | scripts/utils/deployment/config_generator.py:84-86 | the nodes and the sources maps have exactly the nodes of the dict as keys |
| ConfigGenerator.GenerateNodesEach | scripts/utils/deployment/config_generator.py:60-86 | every node gets a Node holding one Application per app and a sources value holding one entry per app, as its own apps loop builds them |
| ConfigGenerator.GenerateNodesFlag | scripts/utils/deployment/config_generator.py:52-88 | the flag a service ends with is that of its last node's last app, False when there is no node or no app |
| ConfigGenerator.GenerateServiceNodes | scripts/utils/deployment/config_generator.py:60-86 | the nodes loop computes GenerateNodes |
| ConfigGenerator.GenerateNextNode | scripts/utils/deployment/config_generator.py:61-86 | one round adds the i-th node's outcome on top of the nodes before it; a failure is that of the whole loop |
| ConfigGenerator.ServiceNodesKeys | scripts/utils/deployment/config_generator.py:59-86 | the generated nodes and sources cover exactly the nodes of the service's `nodes` dict |
| ConfigGenerator.ServiceNodesRewrite | scripts/utils/deployment/config_generator.py:88-94 | the service's values change only by the rewrite, which happens exactly when the flag is set: both prefixes become '' and `deploymentDir` the directory relative to `/` |
| ConfigGenerator.ServiceNodesFlag | scripts/utils/deployment/config_generator.py:60-88 | for any locator, the rewrite is decided by the last app, in app order, of the last node, in dict order: it happens exactly when that app was located outside `/home` |
| ConfigGenerator.ServiceNodesAsWritten | scripts/utils/deployment/config_generator.py:60-88 | as written, a service whose nodes are generated at all had no app located, so the override flag is False and the service values are not rewritten |
| ConfigGenerator.GenerateNodesNoOverride | scripts/utils/deployment/config_generator.py:60-72 | as written, a nodes loop that completes ends with the override flag False |
| ConfigGenerator.GenerateNodesConfig | scripts/utils/deployment/config_generator.py:48-96 | the values document becomes the one NodesConfig specifies and the generated sources and Nodes are returned; unchanged on failure |
| ConfigGenerator.Prefixed | scripts/utils/deployment/config_generator.py:107-110 | a service's values get `hostPathPrefix` = the home directory, `vmPathPrefix` = the kube home directory and `deploymentDir` relative to the home directory; every other key is kept |
| ConfigGenerator.ServiceStep | scripts/utils/deployment/config_generator.py:106-120 | one service keeps the set of services; the directories made stay made even when a later part fails |
| ConfigGenerator.NodesConfigAt | scripts/utils/deployment/config_generator.py:48-96 | `generate_nodes_config` reads and writes only the service's own values |
| ConfigGenerator.RoundOfOutcome | scripts/utils/deployment/config_generator.py:106-120 | one round of the loop is ServiceOutcome |
| ConfigGenerator.ServiceOutcomeEffect | scripts/utils/deployment/config_generator.py:106-120 | a configured service ends with the generated `nodes`, one per node of its `nodes` dict, and prefixes that depend on the flag: the home directories and home-relative directory when unset, '' and the `/`-relative directory when set |
| ConfigGenerator.ServiceStepOutcome | scripts/utils/deployment/config_generator.py:106-120 | one service of the loop changes only that service's values and nodes |
| ConfigGenerator.ServicesLoopCons | scripts/utils/deployment/config_generator.py:106 | the loop is its first step followed by the loop over the rest |
| ConfigGenerator.ServicesLoopFrame | scripts/utils/deployment/config_generator.py:106-120 | a service not in the loop keeps its values and its nodes |
| ConfigGenerator.ServicesLoopDirs | scripts/utils/deployment/config_generator.py:112-113 | the loop makes exactly one directory per service |
| ConfigGenerator.ServicesLoopNodes | scripts/utils/deployment/config_generator.py:115-120 | nodes are recorded for exactly the services run, and no service is added |
| ConfigGenerator.ServicesLoopAt | scripts/utils/deployment/config_generator.py:106-120 | after the loop over distinct services each holds its own outcome and has its nodes recorded |
| ConfigGenerator.GenerateConfigsLoop | scripts/utils/deployment/config_generator.py:99-126 | on a scenario dict, `generate_configs` is the services loop in the dict's order |
| ConfigGenerator.GenerateConfigsShape | scripts/utils/deployment/config_generator.py:99-126 | the dumped document holds the scenario key alone; the other keys of the document are kept; nodes are recorded for every service and one directory made per service |
| ConfigGenerator.GenerateConfigsAt | scripts/utils/deployment/config_generator.py:99-126 | every service of the scenario is left with its own outcome and its nodes recorded |
| ConfigGenerator.ConfigureService | scripts/utils/deployment/config_generator.py:107-120 | the body of the services loop on the values in place: the result and the directories made are those of ServiceStep |
| ConfigGenerator.RunServices | scripts/utils/deployment/config_generator.py:106-120 | the loop over the services, in place, gives the result and directories of ServicesLoop |
| ConfigGenerator.GenerateConfigs | scripts/utils/deployment/config_generator.py:99-126 | the run in place gives the document, the dumped values, the nodes and the directories GenerateConfigsOf specifies; the document is unchanged on failure |
| SourcesPaths.ReleaseDirsToCheck | scripts/utils/deployment/sources_paths.py:25-37 | the directory names a source tree may have; none of them empty |
| SourcesPaths.JoinEach | scripts/utils/deployment/sources_paths.py:38 | each directory name joined onto the base, in order |
| SourcesPaths.Candidates | scripts/utils/deployment/sources_paths.py:38-40 | every directory name under the working directory, then under its parent, then under its grandparent: three candidates per name |
| SourcesPaths.FirstWhere | scripts/utils/deployment/sources_paths.py:41-42 | the index of the first candidate that passes the test, with no earlier one passing; None exactly when none passes |
| SourcesPaths.GetSourcesLocation | scripts/utils/deployment/sources_paths.py:35-52 | succeeds exactly when some candidate is a directory, with the normalized first such candidate; otherwise exits with 1 |
| SourcesPaths.UnknownAppExits | scripts/utils/deployment/sources_paths.py:37-48 | an app without listed directory names has no candidates and always exits |
| SourcesPaths.FirstLevelFirst | scripts/utils/deployment/sources_paths.py:38-42 | a name found directly under the working directory is found before every parent-level candidate |
| SourcesPaths.NearestLevelWins | scripts/utils/deployment/sources_paths.py:38-52 | the first name found directly under the working directory is the location, whatever the parent levels hold |
| SourcesPaths.BinaryCandidates | scripts/utils/deployment/sources_paths.py:68-69 | one binary candidate `<location>/<dir>/oneclient` per sources directory, in order |
| SourcesPaths.OcPodSubstring | scripts/utils/deployment/sources_paths.py:59-65 | without pod-name generation the service name is used verbatim |
| SourcesPaths.LocateOcOf | scripts/utils/deployment/sources_paths.py:55-85 | as intended (add_oneclient_deployment bound): on success the location is that of the app and the record names the first existing binary, under the service name verbatim when no pod name is generated; when no binary exists the call exits with 1 |
| SourcesPaths.FindFirst | scripts/utils/deployment/sources_paths.py:71-82 | the for/else search computes FirstWhere |
| SourcesPaths.LocateOc | scripts/utils/deployment/sources_paths.py:55-85 | the method computes LocateOcOf, the lookup up to the record it hands to deployment_data |
| SourcesPaths.RecordHelper | scripts/utils/deployment/sources_paths.py:84-105 | a located oneclient binary goes to `add_oneclient_deployment`, a located onezone/oneprovider tree to `add_source` |
| SourcesPaths.RecordAsWritten | scripts/utils/deployment/sources_paths.py:84-105 | handing a record to deployment_data raises exactly when the module does not bind the helper |
| SourcesPaths.RecordingAlwaysFails | scripts/utils/deployment/sources_paths.py:84-105 | as written, neither kind of record can be stored: the helper lookup raises an AttributeError |
| SourcesPaths.LocateOcAsWritten | scripts/utils/deployment/sources_paths.py:55-85 | locate_oc as written fails where the lookup fails, with the lookup's error |
| SourcesPaths.LocateOcAlwaysFails | scripts/utils/deployment/sources_paths.py:55-85 | as written, locate_oc never returns: where the intended lookup finds a binary, recording it raises an AttributeError |
| SourcesPaths.LocateOzOp | scripts/utils/deployment/sources_paths.py:88-106 | as intended, with the two-argument pod name and a bound add_source: succeeds exactly when the app is located and its release directory exists there, and only then records the location under the pod; otherwise exits with 1 |
| SourcesPaths.LocateOzOpAlwaysFails | scripts/utils/deployment/sources_paths.py:88-91 | as written, the three-argument gen_pod_name call fails every time: a TypeError wherever the sources are located, exit 1 where they are not |
| SourcesPaths.LocateOzOpRecordFails | scripts/utils/deployment/sources_paths.py:98-106 | with the pod-name call mended, locate_oz_op would still raise an AttributeError, at the add_source call after the release-directory check |
| SourcesPaths.SourcesEntry | scripts/utils/deployment/sources_paths.py:110-112 | the recorded location exactly when `[sources][pod][app]` can be read; a missing level is None; a non-dict record is a TypeError |
| SourcesPaths.GetSourcesPath | scripts/utils/deployment/sources_paths.py:109-112 | no current deployment fails; a deployment without record reads as not recorded |
| SourcesPaths.RecordedOr | scripts/utils/deployment/sources_paths.py:116-119 | a truthy recorded location gives the relative path joined onto it, no location the absolute default |
| SourcesPaths.GetStartScriptPath | scripts/utils/deployment/sources_paths.py:115-119 | the start script below a recorded location, or the package default when none is recorded |
| SourcesPaths.GetLogsDir | scripts/utils/deployment/sources_paths.py:122-126 | the log directory below a recorded location, or `/var/log/<app>` when none is recorded |
| SourcesPaths.LogFileName | scripts/utils/deployment/sources_paths.py:130-131 | `.log` is appended exactly when the name holds no `.` |
| SourcesPaths.GetLogsFile | scripts/utils/deployment/sources_paths.py:129-132 | the log file name joined onto the log directory |
| LegacySources.LegacyCandidates | scripts/sources.py:31-34 | every directory name under the working directory, then under its parent: two candidates per name |
| LegacySources.AddSourceEntryValue | scripts/sources.py:64-69 | on a record whose levels are dicts, the update is the record with `[sources][pod][app]` set to the location |
| LegacySources.AddSourceEntryEffect | scripts/sources.py:64-69 | the update succeeds exactly on a record whose levels are dicts, creating `sources` and the pod's entry when missing; it sets `[sources][pod][app]` and keeps every other top-level key, every other pod and every other app of that pod |
| LegacySources.AddSourceEntryFrame | scripts/sources.py:64-69 | every other pod and app reads back as before: recorded locations stay and nothing else becomes recorded |
| LegacySources.AddSourceEntryWritable | scripts/sources.py:64-69 | after an update the pod's levels are dicts again, so a further update of the same pod succeeds |
| LegacySources.StorePathsLastWins | scripts/utils/deployment/sources.py:139-143 | with add_source taken as this update, storing several paths under one pod and app succeeds on a record whose levels are dicts; the last path is what reads back, and every other pod and app reads back as before |
| LegacySources.LocateOzOpThenLookup | scripts/utils/deployment/sources_paths.py:98-106 | with add_source taken as this update, the location locate_oz_op finds is what get_sources_path reads back for that pod and app, and the start script then lies in the located tree |
| LegacySources.PutOfUpdatedRecord | scripts/sources.py:70 | putting the updated record merges it over the stored one, which writes the updated record itself |
| LegacySources.LocateOf | scripts/sources.py:30-71 | with no candidate directory the call exits with 1; on success the location is the normalized first candidate directory and it holds the release directory; only then is the record updated |
| LegacySources.Locate | scripts/sources.py:30-71 | the for/break search and the in-place update of the loaded record give the location and record LocateOf specifies; the record is unchanged on failure |
| LegacySources.LegacySourcesPath | scripts/sources.py:74-79 | the recorded location exactly when `[sources][pod][app]` can be read; any failure reads as None |
| LegacySources.LegacyStartScriptPath | scripts/sources.py:82-87 | the start script below a recorded location, or the package default when none is recorded |
| LegacySources.LegacyLogsDir | scripts/sources.py:90-95 | the log directory below a recorded location, or `/var/log/<app>` when none is recorded |
| LegacySources.LegacyLogsFile | scripts/sources.py:98-101 | the log file name, with `.log` appended when it has no `.`, joined onto the log directory |
| LegacySources.LocateThenLookup | scripts/sources.py:30-95 | what locate stores is what the lookups read back: the start script and log directory of that pod and app are then under the located tree |
| DeploymentData.DataPath | scripts/utils/one_env_dir/deployment_data.py:17-19 | the record lives at `<current deployment>/deployment_data.yml`, and there is none without a current deployment |
| DeploymentData.Get | scripts/utils/one_env_dir/deployment_data.py:22-26 | the loaded record when the current deployment has one, the default otherwise; fails exactly when there is no current deployment |
| DeploymentData.Merge | scripts/utils/one_env_dir/deployment_data.py:31 | every key of the patch takes the patch's value, every other key of the current record keeps its value, and no other key appears; a non-dict current record is a TypeError |
| DeploymentData.PutOf | scripts/utils/one_env_dir/deployment_data.py:29-32 | put merges the patch over the current record (or {}), shallowly, and no other deployment's record changes |
| DeploymentData.Put | scripts/utils/one_env_dir/deployment_data.py:29-32 | the store's records become those PutOf specifies; the listing is unchanged |
| DeploymentData.PutTwice | scripts/utils/one_env_dir/deployment_data.py:29-32 | putting the same patch twice is putting it once |
| DeploymentData.PutThenPut | scripts/utils/one_env_dir/deployment_data.py:29-32 | two puts in a row are one put of the second patch merged over the first: the second patch's keys win, keys only in the first keep its values |
| DeploymentData.PutFresh | scripts/utils/one_env_dir/deployment_data.py:29-32 | on a deployment without record, two puts of patches with no key in common leave a record with exactly both patches' keys, each with its patch's value |
| DeploymentData.Attribute | scripts/utils/one_env_dir/deployment_data.py:1-33 | `deployment_data.<name>` raises an AttributeError exactly for a name the module does not bind |
| DeploymentData.RecordingHelpersUnbound | scripts/utils/one_env_dir/deployment_data.py:1-33 | the module binds `get` and `put` but not `add_source`, `add_oneclient_deployment` or `add_release` |
| DeploymentsDir.Descending | scripts/utils/one_env_dir/deployments_dir.py:30 | the listing sorted greatest first is a rearrangement of the listing |
| DeploymentsDir.SliceStart | scripts/utils/one_env_dir/deployments_dir.py:31 | where the slice `[limit:]` starts, Python's rules for a negative or oversized limit included |
| DeploymentsDir.RemoveName | scripts/utils/one_env_dir/deployments_dir.py:35 | removing one deployment removes exactly one occurrence of its name |
| DeploymentsDir.DropSpec | scripts/utils/one_env_dir/deployments_dir.py:31-35 | exactly the records of the deployments not removed are left, unchanged |
| DeploymentsDir.WithoutMultiset | scripts/utils/one_env_dir/deployments_dir.py:31-35 | the listing left is the listing minus the removed names |
| DeploymentsDir.Newest | scripts/utils/one_env_dir/deployments_dir.py:38-45 | the last name of the sorted listing: one of the names and the greatest, none for an empty listing |
| DeploymentsDir.SortedLastGreatest | scripts/utils/one_env_dir/deployments_dir.py:39-45 | the last name of the sorted listing is one of the names and the greatest of them |
| DeploymentsDir.PruneMultiset | scripts/utils/one_env_dir/deployments_dir.py:27-35 | what a prune leaves is a rearrangement of the names it keeps |
| DeploymentsDir.KeptAboveDoomed | scripts/utils/one_env_dir/deployments_dir.py:30-31 | every kept name is greater than every removed one |
| DeploymentsDir.LeftIsKept | scripts/utils/one_env_dir/deployments_dir.py:27-35 | what a prune leaves is, as a set of names, what it keeps |
| DeploymentsDir.LeftAboveRemoved | scripts/utils/one_env_dir/deployments_dir.py:27-35 | a name left by a prune is greater than every name it removed |
| DeploymentsDir.PruneKeepsGreatest | scripts/utils/one_env_dir/deployments_dir.py:27-35 | after pruning the remaining deployments are exactly the k greatest names, k being where `[limit:]` starts |
| DeploymentsDir.PrunedValid | scripts/utils/one_env_dir/deployments_dir.py:27-35 | a prune keeps the listing free of duplicates and every record with a listed deployment |
| DeploymentsDir.PruneRecords | scripts/utils/one_env_dir/deployments_dir.py:35 | the records left belong to the deployments left |
| DeploymentsDir.PruneZero | scripts/utils/one_env_dir/deployments_dir.py:27-35 | a limit of 0 removes every deployment and every record |
| DeploymentsDir.NewName | scripts/utils/one_env_dir/deployments_dir.py:56-65 | the new name is never taken: the timestamp when free, otherwise the timestamp, `#` and the random letters; none when that is taken too |
| DeploymentsDir.JoinSuffix | scripts/utils/one_env_dir/deployments_dir.py:64 | appending `#` and the letters to the joined path is joining the longer name |
| DeploymentsDir.RemoveAll | scripts/utils/one_env_dir/deployments_dir.py:31-35 | the `rmtree` loop removes each doomed deployment in turn, listing and records |
| DeploymentsDir.PruneListing | scripts/utils/one_env_dir/deployments_dir.py:27-35 | the prune of a listing and its records removes the doomed deployments and keeps the two consistent |
| DeploymentsDir.Deployments.constructor | scripts/utils/one_env_dir/deployments_dir.py:23-24 | the deployments directory is `<one-env dir>/deployments` |
| DeploymentsDir.Deployments.CurrentName | scripts/utils/one_env_dir/deployments_dir.py:38-45 | the greatest name of the listing; a missing directory is a FileNotFoundError and an empty one exits with 1 |
| DeploymentsDir.Deployments.CurrentDir | scripts/utils/one_env_dir/deployments_dir.py:38-45 | the current deployment's directory under the deployments directory |
| DeploymentsDir.Deployments.CurrentLogDir | scripts/utils/one_env_dir/deployments_dir.py:48-49 | always `<current>/logs` |
| DeploymentsDir.Deployments.Prune | scripts/utils/one_env_dir/deployments_dir.py:27-35 | a missing directory is a FileNotFoundError and nothing changes; otherwise the listing sorted greatest first loses every deployment from position `limit` on, with its record |
| DeploymentsDir.Deployments.New | scripts/utils/one_env_dir/deployments_dir.py:52-69 | the deployments directory exists afterwards; when NewName finds no free name the mkdir fails with FileExistsError and nothing else changes; otherwise the new deployment is added and the history pruned with the limit, and the path of the new name is returned |
| DeploymentsDir.NewWithZeroLimit | scripts/utils/one_env_dir/deployments_dir.py:62-67 | with a history limit of 0 the directory new() returns has already been removed by the prune after it |
| Sync.CallAndCheck | scripts/utils/deployment/sources.py:32-39 | the command's return code comes back unchanged, and an error is reported exactly when it is not 0; nothing is raised |
| Sync.ReadyFileCmd | scripts/utils/deployment/sources.py:67-75 | a `bash -c` command that echoes the panel path into the sentinel file when a path is given and only touches the sentinel otherwise |
| Sync.CreateReadyFileCmd | scripts/utils/deployment/sources.py:67-75 | the command built by appends is the one ReadyFileCmd describes |
| Sync.ReadyFileAppends | scripts/utils/deployment/sources.py:70-73 | the sentinel is appended to (`>>`) exactly when a panel path is given |
| Sync.RsyncSource | scripts/utils/deployment/sources.py:97-123 | the steps issued are those of the plan: one rsync_file per entry, or one for the source path itself |
| Sync.FileStepsSync | scripts/utils/deployment/sources.py:101-109 | one rsync_file sends its path exactly when it exists, and always to `pod:dest` |
| Sync.EachFileSynced | scripts/utils/deployment/sources.py:112-117 | over the entries, the paths sent are `source/<entry>` for the entries that exist, in order |
| Sync.EachFileTo | scripts/utils/deployment/sources.py:112-117 | every rsync of the entries goes to `pod:dest` |
| Sync.RsyncSourceSyncs | scripts/utils/deployment/sources.py:97-123 | rsync_source sends the source path itself when there are no entries and `source/<entry>` for each existing entry otherwise, in order, always to `pod:dest_path` |
| Sync.PackageConfigDir | scripts/utils/deployment/sources.py:44-50 | the package app.config is sent back to the directory it was copied from, `pod:/var/lib/<panel>` |
| Sync.PatchOutcome | scripts/utils/deployment/sources.py:48 | `modify_node_app_config` on a node without a panel app raises StopIteration; otherwise it ends as the host-side patch of the node's app.config does |
| Sync.SourceRun | scripts/utils/deployment/sources.py:168-175 | one loop pass raises exactly when the source is a panel and the patch fails, and then stops right after the patch, before the patched app.config is sent; otherwise it issues the source's full steps |
| Sync.PanelFromSourcesSnoc | scripts/utils/deployment/sources.py:165 | a source list holds a panel exactly when its prefix does or its last source is one |
| Sync.SourcesRunOutcome | scripts/utils/deployment/sources.py:168-175 | the loop raises exactly when some source is a panel and the patch fails, with the patch's error; when it does not raise it issues every source's steps in order |
| Sync.SourcesRunStops | scripts/utils/deployment/sources.py:168-175 | once a prefix of the sources raised, the loop over all of them ends the same way: later sources issue nothing |
| Sync.SourcesRunPreparing | scripts/utils/deployment/sources.py:168-175 | the loop, raising or not, only prepares the pod, and when it raises its last step is the app.config patch |
| Sync.SourceHeadPreparing | scripts/utils/deployment/sources.py:169-171 | the rsync of a source's directories and its overlay config copy only prepare the pod |
| Sync.AllSourceStepsAppend | scripts/utils/deployment/sources.py:168-175 | sources are handled one after another: the steps of a longer list extend those of its prefix |
| Sync.LastPanelPathIs | scripts/utils/deployment/sources.py:172-175 | the panel path after the loop is that of the last source whose name contains `panel` |
| Sync.NoPanelNoPath | scripts/utils/deployment/sources.py:165-175 | without a panel source the panel path stays empty |
| Sync.GetOrNone | scripts/utils/deployment/sources.py:160 | `dict.get` gives the value or None on a dict and fails on anything else |
| Sync.PodSourcesCfg | scripts/utils/deployment/sources.py:132-160 | `get('sources').get(pod)` succeeds exactly when the record and its sources are dicts, and gives the pod's entry or None |
| Sync.PathItems | scripts/utils/deployment/sources.py:160-168 | the items kept are entries of the pod's sources dict whose value is that string path, in dict order; the error is None exactly when every path is a string and TypeError otherwise, and then the items stop right before the first path that is not a string |
| Sync.OzOpContextOf | scripts/utils/deployment/sources.py:154-160 | no matching pod is an IndexError; otherwise the service is the pod's chart, the node is `nodes_cfg[service]['n' + node number]`, the panel is oz_panel exactly when the service contains `zone`, and the pod's sources are a dict |
| Sync.OzOpPlan | scripts/utils/deployment/sources.py:151-186 | the worker first waits for the pod; a failed lookup ends it right there with that error; it ends without an error exactly when the lookups succeed, every path is a string and the node's app.config patch succeeds |
| Sync.FinishRun | scripts/utils/deployment/sources.py:177-185 | without a panel source a failing patch raises after the package app.config is fetched and patched, before it is sent back or the sentinel touched; otherwise the finishing steps are issued and nothing is raised |
| Sync.Finish | scripts/utils/deployment/sources.py:177-185 | the steps after the sources as FinishRun specifies them |
| Sync.SyncSource | scripts/utils/deployment/sources.py:168-175 | one loop pass as SourceRun specifies it |
| Sync.SourcesSnoc | scripts/utils/deployment/sources.py:168-175 | one more source: its steps follow those before, it sets the panel path exactly when it is a panel, and a loop that had not raised goes on with that source's pass |
| Sync.SyncSources | scripts/utils/deployment/sources.py:165-175 | the loop issues the steps and raises the error SourcesRun specifies; when it does not raise it leaves the last panel source's path |
| Sync.RsyncSourcesForOzOp | scripts/utils/deployment/sources.py:151-186 | the worker issues exactly the plan OzOpPlan specifies |
| Sync.EachFilePreparing | scripts/utils/deployment/sources.py:101-109 | syncing files only prepares the pod and never touches the sentinel |
| Sync.SourcePreparing | scripts/utils/deployment/sources.py:168-175 | one source's steps, when nothing raises, only prepare the pod |
| Sync.AllSourcePreparing | scripts/utils/deployment/sources.py:168-175 | all sources' steps only prepare the pod |
| Sync.OzOpPlanShape | scripts/utils/deployment/sources.py:151-186 | a worker whose lookups, paths and patch succeed ends with the sentinel command, carrying the last panel path when a panel is sourced; nothing before it touches the sentinel; without a panel the package app.config is fetched, patched and sent back right before |
| Sync.OzOpPlanSteps | scripts/utils/deployment/sources.py:151-186 | such a worker issues the wait, every source's steps and the finish, and raises nothing |
| Sync.OzOpPatchFails | scripts/utils/deployment/sources.py:151-186 | a worker whose app.config patch raises, once a patch is reached, ends with that error right after the patch and has only prepared the pod: the sentinel is never written |
| Sync.OzOpBadPath | scripts/utils/deployment/sources.py:151-186 | a path that is not a string ends the worker with a TypeError after the sources before it are synced, and the sentinel is never written |
| Sync.OzOpStepsShape | scripts/utils/deployment/sources.py:165-185 | the same shape for the steps after the lookups |
| Sync.OzOpHeadPreparing | scripts/utils/deployment/sources.py:154-175 | the wait and the sources' steps only prepare the pod |
| Sync.OzOpStepsPanel | scripts/utils/deployment/sources.py:182-185 | with a sourced panel, the sentinel gets the panel path after the preparing steps |
| Sync.OzOpStepsPackage | scripts/utils/deployment/sources.py:177-181 | without one, the package app.config round trip comes right before the sentinel is touched |
| Sync.OcPodSync | scripts/utils/deployment/sources.py:134-146 | as intended (add_source bound): one client pod's part of the loop issues the steps OcPodSteps specifies |
| Sync.OcPathsSync | scripts/utils/deployment/sources.py:139-143 | as intended (add_source bound): the loop over one client pod's binaries issues the steps OcPathSteps specifies |
| Sync.RecordedOne | scripts/utils/deployment/sources.py:142-143 | a record step for one path is counted as recording that one path |
| Sync.RsyncRecordsNothing | scripts/utils/deployment/sources.py:140-141 | syncing a binary records nothing |
| Sync.OcRecordsAll | scripts/utils/deployment/sources.py:139-143 | as intended (add_source bound): every binary path of the pod's sources is synced and then handed to add_source, in dict order |
| Sync.OcPathRecorded | scripts/utils/deployment/sources.py:140-143 | one binary's steps are its rsync followed by exactly one add_source call, for that binary |
| Sync.OcPodEnds | scripts/utils/deployment/sources.py:139-146 | as intended (add_source bound): a client pod's commands end with the sentinel being touched, after every binary has been handed to add_source |
| Sync.OcPlan | scripts/utils/deployment/sources.py:126-146 | the client worker first waits for the pods; no matching pod with a readable sources dict issues nothing more and raises nothing |
| Sync.OcPlanBadPath | scripts/utils/deployment/sources.py:134-143 | with add_source bound, a path that is not a string raises a TypeError at the first pod, after the paths before it are synced and recorded there; when add_source raises and the first path is a string, that exception ends the worker after one record; either way the sentinel is not touched |
| Sync.OcPlanAsWritten | scripts/utils/deployment/sources.py:126-143 | as written, a client worker with a matching pod and a first path that is a string rsyncs that one path, raises an AttributeError at its add_source call and never writes the sentinel: every command it issues only prepares the pod |
| Sync.OcFirstRecordSteps | scripts/utils/deployment/sources.py:139-143 | the commands up to a client pod's first add_source call record only the first path and only prepare the pod |
| Sync.OcPodStoresLast | scripts/utils/deployment/sources.py:139-143 | as intended, with add_source the update of legacy scripts/sources.py, a client pod's records leave the last path of its sources dict as the one read back under the pod and the oneclient service |
| Sync.Attribute | scripts/utils/deployment/sources.py:1-213 | `sources.<name>` raises an AttributeError exactly for a name the module does not bind |
| Sync.LocateUnbound | scripts/utils/deployment/sources.py:1-213 | sources.py binds `rsync_sources` and `rsync_source` but no `locate` |
| Sync.ItemPaths | scripts/utils/deployment/sources.py:139 | the values of the pod's sources, one per item, in order |
| Sync.SyncOcPods | scripts/utils/deployment/sources.py:134-146 | as intended (add_source bound): the loop over the matching pods issues each pod's steps in match order |
| Sync.RsyncSourcesForOc | scripts/utils/deployment/sources.py:126-146 | the worker issues exactly the plan OcPlan specifies, including its end at the first record when add_source raises |
| Sync.PlanFor | scripts/utils/deployment/sources.py:196-211 | the worker for one substring logs to `<log dir>/<substring>_rsync.log` and starts by waiting for it |
| Sync.SourceKeys | scripts/utils/deployment/sources.py:196 | the substrings iterated are a dict's keys in dict order, a string's characters or a list of strings' items; a record that is not a dict is an AttributeError, and a missing, None or other non-iterable `sources` is a TypeError |
| Sync.SyncPlans | scripts/utils/deployment/sources.py:189-214 | one worker per substring, in dict order, each with its own log file; the client worker exactly when the substring's service type is oneclient, the onezone/oneprovider one otherwise |
| Sync.RsyncSourcesFor | scripts/utils/deployment/sources.py:199-211 | the worker started for one substring is the one PlanFor specifies |
| Sync.RsyncSources | scripts/utils/deployment/sources.py:189-214 | the workers started are those SyncPlans specifies |
| Sync.StartWorkers | scripts/utils/deployment/sources.py:196-211 | the loop starts one worker per key, in key order |
| Sync.NodeNameRestored | scripts/utils/deployment/sources.py:157 | the node a worker patches is the one the pod was generated for: `'n' + get_node_num(pod)` gives back `n<k>` |
| ScenarioRunner.DigitsThenPIff | scripts/utils/deployment/scenario_runner.py:38 | the scan for `\d+p` at the start of a string agrees with the pattern: one or more ASCII digits, then `p` |
| ScenarioRunner.GetScenarioKey | scripts/utils/deployment/scenario_runner.py:34-38 | the key found is `''` or a key that matches `onedata-\d+p` |
| ScenarioRunner.GetScenarioKeyFirst | scripts/utils/deployment/scenario_runner.py:37-38 | the key found is the first matching key in iteration order |
| ScenarioRunner.GetScenarioKeyNone | scripts/utils/deployment/scenario_runner.py:37-38 | without a matching key the result is `''` |
| ScenarioRunner.ScenarioKeyPrefixOnly | scripts/utils/deployment/scenario_runner.py:38 | the match is anchored at the start only: `onedata-12p-extra` matches, `onedata-p` does not |
| ScenarioRunner.BuildInstallCmd | scripts/utils/deployment/scenario_runner.py:99-135 | the helm command built by the successive extends is the one ScenarioInstallCmd describes |
| ScenarioRunner.InstallPrefix | scripts/utils/deployment/scenario_runner.py:103-111 | the install head and the two values files make 11 tokens, and the last four are `-f MyValues -f CustomConfig` |
| ScenarioRunner.ScenarioValuesOrder | scripts/utils/deployment/scenario_runner.py:103-132 | the values files helm reads are MyValues, then CustomConfig, then SourcesVal exactly when sources are enabled |
| ScenarioRunner.TailFlags | scripts/utils/deployment/scenario_runner.py:121-135 | after the values files, only SourcesVal is a `-f` argument |
| ScenarioRunner.ScenarioVersionFlag | scripts/utils/deployment/scenario_runner.py:134-135 | `--version <CHART_VERSION>` ends the command exactly when there is no local chart |
| ScenarioRunner.ScenarioDebugFlags | scripts/utils/deployment/scenario_runner.py:121-124 | `--debug` comes right after the values files and right before `--dry-run` when both are asked for |
| ScenarioRunner.FlagsSkipped | scripts/utils/deployment/scenario_runner.py:121-124 | the debug flags are not `-f` and take no value, so they change no values file |
| ScenarioRunner.LayoutOf | scripts/utils/deployment/scenario_runner.py:83-97 | charts and logs live under the deployment directory; the scenario is copied to `<deployment>/scenarios/<name>`, and SourcesVal, MyValues and CustomConfig are inside it |
| ScenarioRunner.PrepareChart | scripts/utils/deployment/scenario_runner.py:92-111 | the copies and the chart preparation are issued in run_scenario's order and stop at the first that raises (mkdir, copytree, the `make` of a local chart, the repository add), with its exception |
| ScenarioRunner.Until | scripts/utils/deployment/scenario_runner.py:92-147 | straight-line code: the actions taken are a prefix of those written; they are all of them exactly when none raises, and otherwise end with the first that raises, whose exception ends the run |
| ScenarioRunner.UntilFirstFailure | scripts/utils/deployment/scenario_runner.py:92-147 | the first action that raises ends the run, with its exception, right after it |
| ScenarioRunner.WithoutLocalChartFails | scripts/utils/deployment/scenario_runner.py:106-108 | as written, a run without a local chart whose directories are made and copied stops with an AttributeError right after making the charts directory, since helm.py binds no `add_onedata_repo` |
| ScenarioRunner.WithoutLocalChartPrepares | scripts/utils/deployment/scenario_runner.py:106-108 | as intended, a run without a local chart whose directories are made and copied and whose repository is added prepares the chart fully |
| ScenarioRunner.AsWritten | scripts/utils/deployment/scenario_runner.py:106-140 | the inputs as written: the repository add and the release record raise an AttributeError, and every other input is unchanged |
| ScenarioRunner.InstalledThenFails | scripts/utils/deployment/scenario_runner.py:137-140 | as written, every run whose helm install succeeds stops with an AttributeError right after it, at the release record |
| ScenarioRunner.NoRunCompletes | scripts/utils/deployment/scenario_runner.py:81-147 | as written, no run completes and none syncs sources or configures the pods' operating systems |
| ScenarioRunner.PlanFromNeverCompletes | scripts/utils/deployment/scenario_runner.py:92-147 | the same, once the paths are known |
| ScenarioRunner.PodsUntouchedUpToRecord | scripts/utils/deployment/scenario_runner.py:92-140 | up to the release record, a run neither syncs sources nor configures the OS |
| ScenarioRunner.PlanBeforeInstall | scripts/utils/deployment/scenario_runner.py:92-139 | until the helm install has succeeded, a run takes only actions up to the install, and raises |
| ScenarioRunner.InstallChart | scripts/utils/deployment/scenario_runner.py:113-139 | an env config parse that raises ends the step with that error after the parse; with sources on, a config generation that raises ends it after the generation; otherwise the parse, the generation when sources are on and the helm install are issued, and the exit code is helm's |
| ScenarioRunner.FinalRun | scripts/utils/deployment/scenario_runner.py:140-147 | after a successful install the release is always recorded first; when recording raises (as written it does, see InstalledThenFails) that exception ends the run there; otherwise the actions are a prefix of the full finishing sequence and all of it when nothing raises, and the run raises exactly when an enabled sync or an enabled OS configuration raises, a failing sync winning and ending the run before the OS configuration |
| ScenarioRunner.FinishDeployment | scripts/utils/deployment/scenario_runner.py:140-147 | the actions and the error FinalRun specifies, including the end at the release record when it raises |
| ScenarioRunner.RunScenario | scripts/utils/deployment/scenario_runner.py:81-147 | the actions and the ending exception are those ScenarioPlan describes, for the inputs as written (AsWritten) as for the intended ones |
| ScenarioRunner.NothingRecordedConcat | scripts/utils/deployment/scenario_runner.py:137-144 | actions that record nothing, put together, record nothing |
| ScenarioRunner.NothingRecordedBeforeInstall | scripts/utils/deployment/scenario_runner.py:83-139 | before the helm install succeeds, no release is recorded and no sources are synced |
| ScenarioRunner.PlanFromRecords | scripts/utils/deployment/scenario_runner.py:92-147 | the release record is attempted exactly when the copies, the chart preparation, the env config parse, the config generation and the helm install all succeeded, and then right after the install; when it raises the run ends there with its exception; otherwise the only errors after it are the sync's or the OS configuration's |
| ScenarioRunner.ScenarioEarlyEnd | scripts/utils/deployment/scenario_runner.py:81-147 | a run that stops on an exception has neither recorded the release nor synced sources, unless the exception is the one recording the release, rsync_sources or configure_os raised after the install |
| ScenarioRunner.ScenarioCompleted | scripts/utils/deployment/scenario_runner.py:137-147 | a completed run had a release record that did not raise (so not the code as written); it records the release right after a successful helm install and before anything else, then syncs sources only when they are enabled, and last configures the OS when os-config is set |
| ScenarioRunner.PlanFromCompleted | scripts/utils/deployment/scenario_runner.py:137-147 | the same order, once the paths are known, and again only with a release record that did not raise |
| Pods.ExecCmd | scripts/utils/k8s/pods.py:67-80 | `kubectl --namespace <ns> exec [-it] <pod> --` followed by the command's tokens, unchanged and last |
| Pods.SplitPodPath | scripts/utils/k8s/pods.py:97-103 | unpacking `s.split(':')` into two names succeeds exactly when the string holds one `:`; the parts rejoined give the string back |
| Pods.SplitPodPathOf | scripts/utils/k8s/pods.py:97-103 | `pod:path` with no `:` in either part splits back into those parts |
| Pods.CopyToPodCmd | scripts/utils/k8s/pods.py:96-99 | `kubectl cp <local path> <pod>:<destination>`, and a ValueError exactly when the source does not split |
| Pods.CopyFromPodCmd | scripts/utils/k8s/pods.py:102-105 | `kubectl cp <pod>:<pod path> <destination>`, and a ValueError exactly when the source does not split |
| Pods.CopyCmdSides | scripts/utils/k8s/pods.py:96-105 | copying from a pod reads `pod:path` on the pod side, and copying to a pod writes `pod:dest` |
| Pods.RsyncCmd | scripts/utils/k8s/pods.py:108-139 | the side holding `:` is the pod's; rsync runs there through `kubectl exec` (with the namespace when one is set), and `--delete` is added when asked for; a pod side that does not split is a ValueError |
| Pods.GetNodeNum | scripts/utils/k8s/pods.py:146-147 | the node number holds no `-` |
| Pods.GetNodeNumOf | scripts/utils/k8s/pods.py:146-147 | the node number is whatever follows the last `-` |
| Pods.JobOrPod | scripts/utils/k8s/pods.py:199-210 | an owned object is either a job or a pod; an object with no owner list is a pod; an empty owner list is neither |
| Pods.ListPods | scripts/utils/k8s/pods.py:274-275 | the listed objects that are pods, and only those |
| Pods.MatchPods | scripts/utils/k8s/pods.py:418-423 | the pods whose names match the substring with `-` read as a wildcard, and only those |
| Pods.MatchPodAndRun | scripts/utils/k8s/pods.py:436-469 | the function runs on the single match, and its value is returned, exactly when the substring is non-empty and matches one pod; with several matches it runs on all of them, and says so, only when allowed; otherwise it runs on none |
| Pods.EnvLookup | scripts/utils/k8s/pods.py:172-177 | the value of the first variable with the name, or None when there is none |
| Pods.GetEnvVariable | scripts/utils/k8s/pods.py:172-177 | the loop returns what EnvLookup specifies |
| Pods.ClientPods | scripts/utils/k8s/pods.py:476-477 | the pods whose service type is oneclient, and only those |
| Pods.KeysOf | scripts/utils/k8s/pods.py:478-481 | the aliases, each once, in order of first appearance: the defaultdict's keys |
| Pods.GroupOfSnoc | scripts/utils/k8s/pods.py:478-481 | filing one more client appends it to its alias's group only |
| Pods.KeysOfSnoc | scripts/utils/k8s/pods.py:478-481 | a new alias becomes the last key; a known one changes nothing |
| Pods.AliasedSnoc | scripts/utils/k8s/pods.py:479-481 | one more client gets its provider alias paired with it |
| Pods.GroupsStep | scripts/utils/k8s/pods.py:481 | filing one more pair keeps the groups equal to GroupOf of the pairs filed so far |
| Pods.FileClient | scripts/utils/k8s/pods.py:478-481 | one pass of the first loop keeps the keys and groups equal to those of the pairs filed |
| Pods.GroupByAlias | scripts/utils/k8s/pods.py:478-481 | the first loop files each client pod under its provider alias; a client without a provider host fails the loop at that pod |
| Pods.NumberedCons | scripts/utils/k8s/pods.py:487-491 | numbering a list numbers its head with the current number, then the rest from the next one |
| Pods.OrderedCons | scripts/utils/k8s/pods.py:484-487 | the pods are taken alias by alias in sorted order, each group sorted by pod name |
| Pods.NumberGroup | scripts/utils/k8s/pods.py:487-491 | the inner loop numbers the pods of one group in turn |
| Pods.NumberGroups | scripts/utils/k8s/pods.py:483-491 | the second loop numbers the pods from 1, alias by alias, each group sorted by pod name |
| Pods.ClientAliasToPodMapping | scripts/utils/k8s/pods.py:472-492 | the mapping returned is the one AliasMapping describes, failure included |
| Pods.GroupOfAbsent | scripts/utils/k8s/pods.py:481-485 | an alias with no client has an empty group |
| Pods.AliasedFailsOn | scripts/utils/k8s/pods.py:479-480 | the first client without a provider host decides the failure |
| Pods.SortAliasesMembers | scripts/utils/k8s/pods.py:483 | the sorted aliases are aliases of the clients |
| Pods.NumberedKeeps | scripts/utils/k8s/pods.py:488-490 | numbering leaves alone every key it does not write |
| Pods.NumberedKeepsKey | scripts/utils/k8s/pods.py:488-491 | numbering from a later number does not rewrite an earlier client key |
| Pods.NumberedFirst | scripts/utils/k8s/pods.py:488-490 | the first pod numbered keeps both its entries to the end |
| Pods.NumberedBothWays | scripts/utils/k8s/pods.py:487-491 | when the client pods have distinct names and none starts with `oneclient-`, the j-th pod maps to `oneclient-(i + j)` and that key maps back to the pod |
| KubernetesUtils.GetChartName | scripts/utils/k8s/kubernetes_utils.py:32-33 | the `chart` label when the component has one, None otherwise |
| KubernetesUtils.WalkMatchAt | scripts/utils/k8s/kubernetes_utils.py:40-41 | a piece found after a newline-free gap continues a match of the pattern |
| KubernetesUtils.MatchAtWitness | scripts/utils/k8s/kubernetes_utils.py:40-41 | a match of the pattern places its first piece somewhere after a newline-free gap |
| KubernetesUtils.MatchFromEarlier | scripts/utils/k8s/kubernetes_utils.py:40-41 | a match still holds when it starts earlier, over characters `.*` may skip |
| KubernetesUtils.MatchIsGreedy | scripts/utils/k8s/kubernetes_utils.py:40-41 | for a substring without newlines, `re.match('.*' + pieces joined by '.*' + '.*', name)` succeeds exactly when each piece is found, leftmost, after the one before |
| KubernetesUtils.EmptySubstringMatches | scripts/utils/k8s/kubernetes_utils.py:40-41 | an empty substring matches every name |
| KubernetesUtils.DashIsWildcard | scripts/utils/k8s/kubernetes_utils.py:40 | a dash stands for any run of characters: `z-1` picks out `dev-onezone-node-1-0` |
| KubernetesUtils.MatchComponent | scripts/utils/k8s/kubernetes_utils.py:36-42 | the components whose names match, and only those, never more than listed |
| KubernetesUtils.MatchComponentOrdered | scripts/utils/k8s/kubernetes_utils.py:41-42 | the matches keep the listing's order |
| StatefulSets.GetStatefulSetPods | scripts/utils/k8s/stateful_sets.py:26-30 | the pods whose names start with `<set name>-` followed by one or more ASCII digits, and only those |
| StatefulSets.StatefulSetPodsOrdered | scripts/utils/k8s/stateful_sets.py:28-30 | the pods kept keep the listing's order |
| StatefulSets.SetPodNameWithSuffix | scripts/utils/k8s/stateful_sets.py:30 | any name `<set>-<digit>...` is the set's pod, whatever follows, since there is no end anchor |
| StatefulSets.LaterOccurrenceExcluded | scripts/utils/k8s/stateful_sets.py:30 | a name that holds the set name only further in is not the set's pod, since the match is anchored at the start |
| Helm.ReleaseOrCurrent | scripts/utils/k8s/helm.py:19-51 | a given non-empty release name is used; None or `''` falls back to the current release |
| Helm.InstallCmd | scripts/utils/k8s/helm.py:17-27 | the fixed head naming the chart, namespace and release, then one `-f <path>` per values file, built by the loop |
| Helm.InstallCmdShape | scripts/utils/k8s/helm.py:17-27 | the command has 7 + 2n tokens, the values files sit at the odd positions after the head in their order, and helm reads back exactly those values files |
| Helm.CleanDeploymentCmd | scripts/utils/k8s/helm.py:49-52 | the purge of the given release, or of the current release when none or `''` is given |
| Helm.EnsureDeployment | scripts/utils/k8s/helm.py:42-68 | returns exactly when the deployment's presence (`helm get` exits with 0) is as expected; otherwise exits with 1 when asked to fail and with 0 otherwise |
| Docker.EnvTokens | scripts/utils/docker.py:37 | one `name=value` token per variable, in order |
| Docker.VolumeTokens | scripts/utils/docker.py:47-49 | one `host:mount:options` token per volume, in order |
| Docker.FilterTokens | scripts/utils/docker.py:58 | one `key=value` token per filter, in order |
| Docker.ExtendPairs | scripts/utils/docker.py:36-67 | the loop of `tokens.extend([flag, v])` appends the flag and the value for each value, in order |
| Docker.ParseEnvVars | scripts/utils/docker.py:32-39 | `-e name=value` per variable, in order; none for no variables |
| Docker.ParseVolumes | scripts/utils/docker.py:42-50 | `-v host:mount:options` per volume, in order |
| Docker.ParseFilters | scripts/utils/docker.py:53-59 | `-f key=value` per filter, in order |
| Docker.ParseGroups | scripts/utils/docker.py:62-69 | `--group-add group` per group, in order |
| Docker.EnvVarsReadBack | scripts/utils/docker.py:32-39 | every variable token can be read back, in order, from the `-e` arguments, two tokens per variable |
| Docker.DefaultVolumeOptions | scripts/utils/docker.py:21-49 | with the default options `''` the volume token ends with `:` |
| Docker.DefaultUserGroup | scripts/utils/docker.py:112-113 | a user with the default group `''` is passed as `user:` |
| Docker.FormatCommand | scripts/utils/docker.py:172-178 | a list is used as it is, a string as one token, and anything else is a TypeError |
| Docker.CommandTokens | scripts/utils/docker.py:129-156 | the tokens that end the command: none for a falsy command, the list or the one string otherwise; a TypeError exactly for a truthy value of another type |
| Docker.Ps | scripts/utils/docker.py:73-84 | `docker ps`, then `--all` and `-q` when asked for, then the filters |
| Docker.Rm | scripts/utils/docker.py:87-95 | `docker rm`, `-f` when forced, then the container |
| Docker.Inspect | scripts/utils/docker.py:161-169 | `docker inspect`, `--format <f>` when a format is given, then the container |
| Docker.BuildRunFlags | scripts/utils/docker.py:108-121 | the single-valued options of `docker run`, each only when set, in the order they are appended |
| Docker.Run | scripts/utils/docker.py:99-132 | `docker run`, the options, the variables, volumes and groups, the image, then the command tokens; a TypeError exactly when the command has a bad type |
| Docker.Execute | scripts/utils/docker.py:135-158 | `docker exec`, its options and variables, the container, then the command tokens; a TypeError exactly when the command has a bad type |
| Docker.RunImagePosition | scripts/utils/docker.py:127-130 | in a successful run the image is the token right before the command tokens, and the command tokens end the vector unchanged |
| Docker.StatusCmd | scripts/utils/docker.py:181-182 | the status is read by `docker inspect --format '{{ .State.Status }}' <container>` |
| Common.LetterAt | scripts/utils/common.py:25 | every position of the alphabet holds an ASCII letter |
| Common.AsciiLetters | scripts/utils/common.py:25 | `string.ascii_letters`: 52 letters, `a` to `z` then `A` to `Z` |
| Common.LetterIndex | scripts/utils/common.py:25 | every ASCII letter stands somewhere in `string.ascii_letters` |
| Common.RandomString | scripts/utils/common.py:24-26 | `n` ASCII letters, none for a negative count |
| Common.RandomStringCovers | scripts/utils/common.py:24-26 | every string of ASCII letters of the right length can come out |
| Common.ConcatCons | scripts/utils/common.py:33-37 | gluing lines is gluing the first onto the rest |
| Common.LinesConcat | scripts/utils/common.py:33 | the lines `for line in file` yields glue back into the text |
| Common.LinesEmpty | scripts/utils/common.py:33 | only the empty text yields no lines |
| Common.LinesFirst | scripts/utils/common.py:33 | the first line starts the text, and ends with a newline when more lines follow |
| Common.LinesShape | scripts/utils/common.py:33 | every line holds at most one newline, its last character, and every line but the last has it |
| Common.ConcatAppend | scripts/utils/common.py:33-37 | gluing two runs of lines is gluing each and joining the texts |
| Common.LinesOfPrepend | scripts/utils/common.py:33 | a complete line in front of a text is the first line read |
| Common.LinesOfConcat | scripts/utils/common.py:33 | complete lines glued together are read back as the same lines |
| Common.LinesOut | scripts/utils/common.py:33-37 | one line printed back per line read, each rewritten by `re.sub` in regexp mode and `str.replace` otherwise |
| Common.BackupName | scripts/utils/common.py:32 | the backup name extends the path with its suffix |
| Common.AfterFileinput | scripts/utils/common.py:32-37 | the path holds the rewritten text; the original is kept under the backup name when a backup suffix is given, and no file of that name is left otherwise; every other file stays |
| Common.ReplaceInFileUsingFileinput | scripts/utils/common.py:29-37 | a missing file is a FileNotFoundError and nothing changes; otherwise the files become those AfterFileinput describes, the text rewritten line by line |
| Common.PrintLines | scripts/utils/common.py:33-37 | the loop prints every line, rewritten, into the emptied file, in order |
| Common.MatchReachesNewline | scripts/utils/common.py:37 | a match at a line's start that reaches its end holds the newline |
| Common.ReplaceAllAppend | scripts/utils/common.py:37 | replacing in text split after a newline is replacing in each part, for a pattern without a newline |
| Common.ReplaceAllAppendMatch | scripts/utils/common.py:37 | the same, when the pattern matches at the start |
| Common.ReplaceAllAppendSkip | scripts/utils/common.py:37 | the same, when it does not |
| Common.ReplaceSkipNewline | scripts/utils/common.py:37 | the same, when the first part is a lone newline |
| Common.ReplaceSkipLonger | scripts/utils/common.py:37 | the same, when the first part is longer |
| Common.ReplaceNewline | scripts/utils/common.py:37 | a lone newline is left as it is |
| Common.ReplaceSkipFirst | scripts/utils/common.py:37 | no match at the start: the first character is kept and the rest replaced |
| Common.ReplaceLines | scripts/utils/common.py:33-37 | for a pattern without a newline, replacing line by line is replacing in the whole text |
| Common.ReplaceJoinCons | scripts/utils/common.py:33-37 | one more line in front keeps the two sides of ReplaceLines equal |
| Common.LiteralFileinputIsReplace | scripts/utils/common.py:29-37 | in literal mode, for a non-empty pattern without a newline, the file ends up as `text.replace(pattern, value)` of the whole text |
| Common.SpanningPatternNeverMatches | scripts/utils/common.py:33-37 | a pattern spanning a line break never matches line by line, though it does in the whole text |
| Common.ReplaceInFileUsingOpen | scripts/utils/common.py:40-46 | a missing file is a FileNotFoundError and nothing changes; otherwise the file holds exactly the rewritten text, since the truncate leaves nothing of the old text |
| Common.RemoveTree | scripts/utils/common.py:52 | the directory and everything below it go, and nothing else changes |
| Common.ForceCreate | scripts/utils/common.py:49-53 | a file at the path is a NotADirectoryError and nothing changes; the call succeeds exactly when no ancestor is a file, and then the path and its ancestors are directories; anything outside the path is kept |
| Common.AncestorsNest | scripts/utils/common.py:53 | an ancestor of an ancestor is an ancestor |
| Common.AncestorOfUnder | scripts/utils/common.py:53 | a path whose ancestor lies in a directory lies in that directory |
| Common.UnderHasAncestor | scripts/utils/common.py:53 | a path below a directory has that directory among its ancestors |
| Common.RemoveTreeClosed | scripts/utils/common.py:52 | removing a tree leaves every file and directory in existing directories |
| Common.ForceCreateClosed | scripts/utils/common.py:49-53 | force_create_directory keeps every file and directory in existing directories, whatever its outcome |
| Common.ForceCreateFresh | scripts/utils/common.py:49-53 | a successful force_create_directory leaves the path an existing, empty directory |
| Common.ForceCreateTwice | scripts/utils/common.py:49-53 | running it twice leaves the same tree as running it once |
| Common.ForceCreateDirectory | scripts/utils/common.py:49-53 | the file system afterwards, and the outcome, are those ForceCreate describes |
| Disk.MakeDirsError | scripts/utils/deployment/node.py:47 | `os.makedirs(path, exist_ok=True)` fails exactly when the path or one of its ancestors is a file: FileExistsError for the path itself, NotADirectoryError for an ancestor |
| Disk.MakeDirs | scripts/utils/deployment/node.py:47 | afterwards the directories are the old ones, the path and its ancestors, and no other |
| Common.RelCandidatesLength | scripts/utils/common.py:64-66 | one candidate per name for the working directory and for each relative path |
| Common.OneMoreRow | scripts/utils/common.py:66 | one more relative path adds one candidate per name |
| Common.RelCandidatesHead | scripts/utils/common.py:64 | the names under the working directory come first, in order |
| Common.RelCandidatesPrefix | scripts/utils/common.py:65-66 | the candidates of the first relative paths come before those of later ones |
| Common.RelCandidatesBlock | scripts/utils/common.py:66 | the j-th name under the k-th relative path is candidate `(k + 1) * len(dirs) + j` |
| Common.FindFilesInRelativePaths | scripts/utils/common.py:60-70 | all the candidates are returned; the location is the first candidate that exists, and None exactly when none does |
| Common.CheckOutputCall | scripts/utils/common.py:78-79 | check_output takes no keyword but stderr: a call with any other keyword is a TypeError |
| Common.GetGitRepoAsWrittenFails | scripts/utils/common.py:77-80 | as written, get_git_repo passes `cwd`, so every call fails with a TypeError |
| Common.GitRepo | scripts/utils/common.py:80 | the repository name holds no slash |
| Common.BasenameOfJoin | scripts/utils/common.py:80 | the last component of `a/b` is `b` |
| Common.GitRepoOfRemote | scripts/utils/common.py:77-80 | a remote `.../name.git` names the repository `name`, and so does `.../name` |
| Common.StripGitExt | scripts/utils/common.py:80 | `name.git` loses exactly its extension |
| EnvConfig.Override | scripts/utils/one_env_dir/env_config.py:42-67 | only the keys named by an argument are ever forced |
| EnvConfig.Merge | scripts/utils/one_env_dir/env_config.py:38 | `{**default, **custom}` is a TypeError unless both are dicts; otherwise its keys are the union, a custom key's value wins, and every other default value is kept |
| EnvConfig.ApplyFlags | scripts/utils/one_env_dir/env_config.py:42-49 | the scenario and sources arguments are applied in the code's order, and every other key is left alone |
| EnvConfig.ApplyServiceImages | scripts/utils/one_env_dir/env_config.py:51-58 | the onezone, oneprovider and oneclient images are applied, and no other key changes |
| EnvConfig.ApplyToolImages | scripts/utils/one_env_dir/env_config.py:60-67 | the REST client image (under `onedataCliImage`), the LUMA image and no_pull are applied, and no other key changes |
| EnvConfig.AppliedCompose | scripts/utils/one_env_dir/env_config.py:42-67 | applying the arguments to two disjoint sets of keys, one after the other, applies them to both |
| EnvConfig.ApplyImages | scripts/utils/one_env_dir/env_config.py:51-67 | the image arguments and no_pull are applied; the scenario and sources keys are left alone |
| EnvConfig.OverrideImages | scripts/utils/one_env_dir/env_config.py:51-67 | each image key is forced to its argument when the argument is non-empty, and forceImagePull to False exactly when no_pull is set |
| EnvConfig.ImagesApplied | scripts/utils/one_env_dir/env_config.py:51-67 | besides the scenario and sources, only the image keys and forceImagePull are forced |
| EnvConfig.AppliedIsCoalesced | scripts/utils/one_env_dir/env_config.py:38-67 | the merge followed by the applied arguments is the config Coalesced describes |
| EnvConfig.CustomConfig | scripts/utils/one_env_dir/env_config.py:35 | without a user config path the custom config is the empty dict |
| EnvConfig.Coalesce | scripts/utils/one_env_dir/env_config.py:22-71 | the config is dumped to `<deployment>/env_config.yaml`; it is the Coalesced config, and coalesce fails exactly when that does |
| EnvConfig.UnforcedKeysKeepMerged | scripts/utils/one_env_dir/env_config.py:37-67 | a key no argument forces keeps its merged value: the custom one if the user config has it, else the template's; it is absent only when both lack it |
| EnvConfig.ForcedKeys | scripts/utils/one_env_dir/env_config.py:42-67 | each forced key holds what its argument says; packages wins over sources when both are set |
| EnvConfig.PullKeptWithoutNoPull | scripts/utils/one_env_dir/env_config.py:66-67 | without no_pull, forceImagePull is whatever the merged configs say |
| EnvConfig.CoalesceIdempotent | scripts/utils/one_env_dir/env_config.py:22-71 | coalescing again with the same arguments, no user config and the result fed back in as the default template, changes nothing |
| BranchConfig.CoalesceBranchConfig | scripts/utils/artifacts/branch_config.py:23-36 | a non-dict config is a TypeError; with no current branch and no default branch anywhere it is a KeyError; otherwise a given default branch overwrites DEFAULT_BRANCH, CURRENT_BRANCH is the given current branch or else the (possibly overwritten) default branch, and every other key is kept |
| DownloadArtifact.ArtifactPathPlain | scripts/utils/artifacts/download_artifact.py:98-99 | for an ordinary plan name the artifact sits at `artifacts/<plan>/<branch>.tar.gz` |
| DownloadArtifact.ArtifactTarName | scripts/utils/artifacts/download_artifact.py:102-103 | the plan with every dash made an underscore, then `.tar.gz`; no dash is left |
| DownloadArtifact.DownloadArtifactSafe | scripts/utils/artifacts/download_artifact.py:63-86 | the branch when the copy succeeds; otherwise None without a handler, else the handler's result, called with the keyword arguments exactly when some were given |
| DownloadArtifact.DownloadDefaultArtifact | scripts/utils/artifacts/download_artifact.py:46-60 | the branch when its artifact downloads, `exit(1)` otherwise |
| DownloadArtifact.SpecificOrDefaultChain | scripts/utils/artifacts/download_artifact.py:21-60 | the requested branch if its artifact downloads, else the default branch if that one does, else exit with 1 |
| DownloadArtifact.SpecificOrDefaultReturnsBranch | scripts/utils/artifacts/download_artifact.py:21-60 | when it returns, it returns one of the two branches; it can only exit with 1, and it never raises |
| DownloadArtifact.KeywordArgumentsPassedIffGiven | scripts/utils/artifacts/download_artifact.py:81-85 | keyword arguments reach the handler exactly when some are given: the keyword-only download_default_artifact fails without them, and `exit` fails with them |
| Upgrade.QualifyAll | scripts/onenv_upgrade.py:115-116 | every key is qualified as `onedata-3p.<chart>.<key>` and every value kept, in order |
| Upgrade.ParseSetValues | scripts/onenv_upgrade.py:104-117 | the pairs appended and then qualified are those SetValuesOf describes; a missing stateful set is an AttributeError |
| Upgrade.SetValuesShape | scripts/onenv_upgrade.py:104-117 | the image pair is there exactly when an image is given, and first; the timestamp pair exactly when sources are asked for, and last; every key starts with `onedata-3p.<chart>.` |
| Upgrade.ValuesFiles | scripts/onenv_upgrade.py:39-42 | the dumped previous values come first, then the given files in order |
| Upgrade.DropFirst | scripts/onenv_upgrade.py:122 | `cmd[1:]` is the command without its first token, and empty for an empty command |
| Upgrade.UpgradeStatefulSet | scripts/onenv_upgrade.py:48-58 | the previous values are dumped first; with show_diff only a diff follows; otherwise the upgrade runs and then the set's pods are synced |
| Upgrade.UpgradeDeployment | scripts/onenv_upgrade.py:61-72 | the previous values are dumped first; with show_diff only a diff follows; otherwise the upgrade runs and then every pod is synced |
| Upgrade.Rollback | scripts/onenv_upgrade.py:75-84 | with show_diff only a diff is shown; otherwise the rollback runs and then every pod is synced |
| Upgrade.StatefulSetBranch | scripts/onenv_upgrade.py:201-216 | the stateful-set branch fails exactly when no set matched, and then exits with 1; otherwise it starts by dumping the previous values |
| Upgrade.MissingSetCrashes | scripts/onenv_upgrade.py:203-209 | as written, a pattern that matches no set ends in an AttributeError from get_chart_name(None) instead of exit(1); with a match the code as written and the corrected branch agree |
| Upgrade.StatefulSetNeedsSourcesOrImage | scripts/onenv_upgrade.py:201-220 | a stateful set without `--sources` or `--image` exits with 1 |
| Upgrade.MainPlan | scripts/onenv_upgrade.py:194-228 | as written: it fails exactly when the deployment check fails, or a stateful set is given without `--sources` or `--image` or matching no set; no deployment exits with 1; a stateful set without `--sources` or `--image` exits with 1, and one matching no set raises an AttributeError; a stateful set or yaml values upgrade starts by dumping the previous values; otherwise only a rollback, if asked for, runs |
| Upgrade.ShowDiffChangesNothing | scripts/onenv_upgrade.py:54-81 | with `--show-diff` nothing is upgraded, rolled back or synced: the only actions are dumping the previous values and showing diffs |
| Upgrade.UpgradeOrder | scripts/onenv_upgrade.py:35-72 | an upgrade passes the previous values first and then the given file, and syncs the pods only after the upgrade command has run |
| Upgrade.DiffDropsHelm | scripts/onenv_upgrade.py:120-122 | the diff runs the command without its leading `helm` |
| Patch.SupportJobLabel | scripts/onenv_patch.py:33-34 | the support jobs of a release carry the label `app=<release>-<cross-support job chart>` |
| Patch.SupportJobLabelInjective | scripts/onenv_patch.py:33-37 | two releases never share a support-job label, so only the patch release's jobs are deleted |
| Patch.PatchReleaseName | scripts/onenv_patch.py:111-112 | the patch release is the one given, or `patch-<deployment release>` when none is given |
| Patch.DefaultPatchReleaseIsNotDeployment | scripts/onenv_patch.py:111-114 | the default patch release starts with `patch-` and is never the deployment's own release, so cleaning it up cannot delete the deployment being patched |
| Patch.ParseGlobalConf | scripts/onenv_patch.py:40-43 | the landscape document becomes the one GlobalConf describes, and is left as it was on an error |
| Patch.GlobalConfEffect | scripts/onenv_patch.py:40-43 | it fails exactly on a non-dict landscape or a non-dict `global`; on success `global.releaseNameOverride` holds the release name, every other key of `global` and of the landscape is kept, and a missing `global` becomes one holding only the override |
| Patch.GlobalConfIdempotent | scripts/onenv_patch.py:40-43 | setting the override a second time with the same name changes nothing |
| Patch.AdminEntry | scripts/onenv_patch.py:53-54 | the admin entry built from the credentials is truthy |
| Patch.ParseOnedata3pConf | scripts/onenv_patch.py:46-56 | the landscape document and the outcome are those Onedata3pConf describes |
| Patch.Onedata3pConfEffect | scripts/onenv_patch.py:46-56 | on success `onedata-3p.enabled` is False; `onedata-3p.onezone.onezoneAdmin` holds the given credentials exactly when it was absent or falsy, and is kept otherwise; every other key is kept |
| Patch.Onedata3pConfIdempotent | scripts/onenv_patch.py:46-56 | the admin is set at most once: patching a patched landscape again, with any credentials, changes nothing |
| Patch.Onedata3pConfErrors | scripts/onenv_patch.py:46-56 | it fails exactly on a non-dict landscape, a non-dict `onedata-3p` or a non-dict `onezone`; only the last leaves a change behind (`enabled` already stored), and only when `onedata-3p` was already in the landscape |
| HelpFormatter.HelpString | scripts/utils/arg_help_formatter.py:21-29 | the help is returned unchanged or with the default suffix appended, nothing else |
| HelpFormatter.HelpStringSpec | scripts/utils/arg_help_formatter.py:23-28 | the suffix is appended if and only if the help lacks `%(default)`, the default is neither SUPPRESS nor None, the action is no store-true flag, and the argument is optional or has nargs `?`/`*` |
| HelpFormatter.SuffixShowsDefault | scripts/utils/arg_help_formatter.py:28 | the appended suffix contains the `%(default)` placeholder |
| HelpFormatter.HelpStringIdempotent | scripts/utils/arg_help_formatter.py:23-28 | formatting an already formatted help changes nothing: the suffix is appended at most once |
| UpdateHosts.FirstMatch | scripts/update_etc_hosts.py:31-32 | the index found is the first line the domain is found in; None exactly when no line has it |
| UpdateHosts.PutEntry | scripts/update_etc_hosts.py:29-35 | the first matching line is replaced by `ip\tdomain\n` and every other line keeps its place; with no match the entry is appended |
| UpdateHosts.FindFirstMatch | scripts/update_etc_hosts.py:31-35 | scanning all lines and taking the first index (IndexError on none) gives FirstMatch |
| UpdateHosts.FirstMatchUnique | scripts/update_etc_hosts.py:31-33 | a matching index with no match before it is the one FirstMatch returns |
| UpdateHosts.UpdateEtcHosts | scripts/update_etc_hosts.py:13-40 | a missing /etc/hosts is a FileNotFoundError with the file system untouched; otherwise the file becomes the lines updated pod by pod, `dev-` pods with an IP and a domain only |
| UpdateHosts.UpdatedLinesFrame | scripts/update_etc_hosts.py:23-37 | the file grows by at most one line per pod, and each line is either an original line in its place or the entry of a selected pod |
| UpdateHosts.UnselectedIgnored | scripts/update_etc_hosts.py:24-28 | pods that are not `dev-` nodes or lack an IP or a domain leave the lines unchanged |
| Hosts.Tokens | scripts/onenv_hosts.py:53 | `str.split()`: every token is non-empty and free of whitespace |
| Hosts.TokensCover | scripts/onenv_hosts.py:53 | the tokens, concatenated, are the text with its whitespace removed |
| Hosts.TokensTrailingSpace | scripts/onenv_hosts.py:53 | trailing whitespace adds no token |
| Hosts.IpMapOfSpec | scripts/onenv_hosts.py:39-49 | the map holds exactly the names of the stored entries, each listed once, with the IP of its last entry (a hostname equal to a domain overwrites its IP) |
| Hosts.IpMapOrdered | scripts/onenv_hosts.py:45-49 | the key order lists each name once, and lists exactly the mapped names |
| Hosts.IpMapNames | scripts/onenv_hosts.py:44-47 | a name is mapped if and only if some stored entry (a domain or hostname set together with an IP) carries it |
| Hosts.IpMapLastEntry | scripts/onenv_hosts.py:44-47 | a mapped name carries the IP of its last stored entry: no later entry names it |
| Hosts.BuildIpMap | scripts/onenv_hosts.py:39-47 | the loop over the pods builds the map and key order IpMapOf specifies |
| Hosts.StorePod | scripts/onenv_hosts.py:40-47 | one pod stores its domain and then its hostname, each only when it and the IP are set |
| Hosts.Survivors | scripts/onenv_hosts.py:52-58 | every kept entry is a line of the file with two fields, no leading `#`, naming no mapped name |
| Hosts.SurvivorsAppend | scripts/onenv_hosts.py:52-58 | keeping distributes over concatenation, so kept entries keep their order |
| Hosts.SurvivorsSpec | scripts/onenv_hosts.py:52-58 | an entry is kept if and only if it is a line of the file with two fields, no leading `#`, and a second field that is not a mapped name |
| Hosts.Added | scripts/onenv_hosts.py:62-65 | one `ip\tname\n` entry per mapped name, in the map's order |
| Hosts.Terminate | scripts/onenv_hosts.py:55-58 | in the completed rewrite, a kept entry is written back ending in a newline |
| Hosts.KeptText | scripts/onenv_hosts.py:51-58 | the second loop gathers the kept entries as read, in order |
| Hosts.KeptStep | scripts/onenv_hosts.py:55-58 | one more line read adds itself, as read, exactly when it survives |
| Hosts.AddedText | scripts/onenv_hosts.py:62-66 | the third loop appends one entry per mapped name in the map's order |
| Hosts.OnenvHosts | scripts/onenv_hosts.py:33-69 | a missing hosts file is a FileNotFoundError and nothing changes; otherwise the file becomes the kept entries as read followed by the mapped names' entries |
| Hosts.HostsContentShape | scripts/onenv_hosts.py:51-69 | the new file is the kept entries as read, then exactly one entry per mapped name in the map's order; no kept entry names a mapped name and every two-field entry naming none of them is kept |
| Hosts.HostsEntryTokens | scripts/onenv_hosts.py:63-65 | an entry written for a plain name splits into exactly the IP and the name |
| Hosts.HostsEntryIsLine | scripts/onenv_hosts.py:63-65 | an entry's only newline is its last character |
| Hosts.AddedDropped | scripts/onenv_hosts.py:52-58 | the appended entries are whole lines that a second run drops, since they name mapped names |
| Hosts.KeptKept | scripts/onenv_hosts.py:52-58 | the kept entries, completed, are whole lines that a second run keeps |
| Hosts.HostsContentIdempotent | scripts/onenv_hosts.py:33-69 | running the rewrite again for the same pods leaves the file as it is, when names and IPs are whitespace-free and no IP starts with `#` |
| Hosts.MissingNewlineMergesEntries | scripts/onenv_hosts.py:55-65 | as written, a last entry without a newline gets the first added entry glued onto it: one line with four fields, so the domain gets no entry of its own; the completed version writes two lines |
| Hosts.OneLineKept | scripts/onenv_hosts.py:52-58 | the one entry of the counterexample, naming another name, is kept by both versions |
| Hosts.GluedLine | scripts/onenv_hosts.py:58-65 | a line without a newline followed by a complete line reads back as one line |
| Hosts.CompletedLines | scripts/onenv_hosts.py:58-65 | the same line completed, followed by a complete line, reads back as two lines |

## Left out

- Concurrency: the worker `Process` per pod in `rsync_sources` and `rsync_source`, and the watch loop and its threads. The plans are laid out one after another because the workers are independent.
- Executing kubectl, helm, rsync, docker, git, tar, ssh/scp and S3, and listing the cluster. Their exit codes and outputs are parameters, and the commands are returned as argument vectors or abstract plan steps.
- Printing, terminal colouring, log files, YAML/JSON parsing and dumping. Loaded documents are `Yaml.Value`s.
- Waiting and polling for pods, `logs`/`logs_follow`, signal handlers, and the other cluster queries in scripts/utils/k8s/pods.py: `get_pods_cmd`, `describe_pods_cmd`, `delete_kube_object_cmd`, `logs_cmd`, the `list_*`/`all_*`/`clean_*` helpers, `attach`, `pod_exec`, `file_exists_in_pod`, `create_users` and `create_groups`. They are I/O around the cluster, or depend on Python's salted `hash`.
- The clock (`get_curr_time`, deployment directory timestamps) and `random.choice` are parameters.
- Regular expressions in general. Pod matching, the stateful-set filter, the scenario-key match and the app.config patch are modelled only for patterns without metacharacters, as explicit scans. The stateful-set name is read literally, although the code puts it into a regex.
- `re.sub` in `replace_in_file_using_fileinput/open` in regexp mode, and `re.search(domain, line)` in update_etc_hosts.py. Both are function parameters.
- `DeployNode.PatchLine`: the replacement value is inserted as it is. Backslash escapes in `re.sub` templates are not interpreted.
- Util.Split: only the ASCII whitespace that `str.split()` splits on is modelled, not the other Unicode whitespace.
- `sources.locate` (called from config_generator.py:32) is not defined in sources.py. As written the lookup raises an AttributeError (`ConfigGenerator.LocateAsWritten`, see Findings). What a defined `locate` would answer is the parameter `locate`. The `os.path.abspath` working directory is the parameter `cwd`.
- Five names are imported from scripts/utils/names_and_paths.py, which does not bind them: `SERVICE_ONECLIENT`, `ONECLIENT_BIN_PATH`, `oneclient_sources_dirs`, `get_service_type` and `get_matching_oneclient`. As written, the imports in sources.py, sources_paths.py and config_parser.py raise an ImportError (see Findings). The rest of the model supplies these five names as uninitialised constants or parameters, as if the module bound them.
- `deployment_data.add_source`, `add_oneclient_deployment` and `add_release` are called but not defined in scripts/utils/one_env_dir/deployment_data.py, so as written each call raises an AttributeError (see Findings). What the intended helpers would do is modelled only as far as the code shows it:
  - `add_source` as the nested update of legacy scripts/sources.py:63-69 (`LegacySources.StorePaths`, `LegacySources.LocateOzOpThenLookup`);
  - `add_oneclient_deployment` as the record value `SourcesPaths.AddOneclientDeployment`, since no revision shows where it would store the binary path;
  - `add_release` as the abstract action `ScenarioRunner.AddRelease`, whose exception is the parameter `releaseAdded`.
- The upgrade helpers `upgrade_cmd`, `rollback_cmd`, `diff_cmd`, `get_values_cmd`, `match_components_verbose` and the previous-values path come from modules that are not part of this model. They are parameters or abstract actions.
- `gen_pod_name` is modelled with its two-parameter definition. The two-argument call at sources_paths.py:65 is computed by `SourcesPaths.LocateOc`. The three-argument call at sources_paths.py:91 raises a TypeError, which `SourcesPaths.LocateOzOpAsWritten` models (see Findings). `SourcesPaths.LocateOzOp` models the evidently intended behaviour and takes the pod name as a parameter.
- `rsync_sources_for_pods` in onenv_upgrade.py is the abstract action `Upgrade.RsyncSourcesForPods`. Its body calls `rsync_sources` with five arguments, while the definition takes three, so what it would do is not modelled. `dump_prev_values_to_file` is the action `Upgrade.DumpPrevValues`.
- config_parser.py `parse_env_config`, `parse_service_cfg`, `enable_sources`, `enable_oneclients`, `parse_my_values` and `parse_custom_sources_for_oc`. These are the top-level driver and the chart-anchor file appends, which rely on the order of the first key of a dict. The steps they call are modelled one by one.
- `configure_os` and `update_charts_dependencies` in scenario_runner.py are the abstract actions of the run plan. Their internals are shell and kubectl calls.
- `download_artifact` (the SCP copy itself), `unpack_tar`, `get_git_branch_cmd`, `get_kube_client`, `list_stateful_sets`, `get_default_env_config` and `branch_config_template_path` are I/O or file-location lookups, and their results are parameters.
- onenv_hosts.py: loading the status with `./onenv status` and the `sudo` write permissions are left out. The status is the parameter `pods`.
- update_etc_hosts.py `main` only parses arguments and calls `update_etc_hosts`, which is modelled.
- onenv_patch.py: the argument parsing and the kubectl/helm calls of `main` are left out. The landscape rewrite, the release-name default and the job label are modelled.
- In `ScenarioRunner`, the calls to `config_parser.parse_env_config` (a driver, left out above), `config_generator.generate_configs`, `sources.rsync_sources` and `configure_os` are actions of the run plan. Whether each of them raises is a parameter of `ScenarioRunner.Inputs` (`parsed`, `generated`, `synced`, `configured`). The plan is not tied to the outcomes that `ConfigGenerator` and `Sync` compute.
- Sync.PatchOutcome: every app.config patch in one worker gets the outcome of the patch on the host's files as the first patch finds them (`World.hostFiles`). A later patch in the same worker is taken to end the same way, although the earlier patch has rewritten the file.
- ConfigGenerator.GenerateConfigs: the model updates a copy of the sources values and writes it back only when every service succeeds. config_generator.py:106-123 mutates the values in place. So when a service fails, the source has already rewritten the earlier services' prefixes and nodes and the failing service's prefixes; the model does not capture those partial writes.
- ScenarioRunner.DigitsThenPIff: `\d` is read as the ASCII digits 0-9 (`Util.IsDigit`). Python 3 `re` also matches every other Unicode decimal digit.
- StatefulSets.GetStatefulSetPods: `\d` is read as the ASCII digits 0-9, as for DigitsThenPIff.
- Sync.SourceKeys: a `sources` list holding something other than a string is reported as a TypeError. What `get_service_type` would do with such an item is not modelled.
- Sync.PathItems: a path that is an integer is a TypeError in the model. `os.path` and `rsync` would treat some such values differently (an integer as a file descriptor); that is not distinguished.
- ConfigParser.ParseNodeNum: `int()` is read as an optional sign and ASCII digits (`Util.ParseInt`). Python's `int()` also accepts surrounding whitespace, underscores between digits and non-ASCII decimal digits; names such as `node- 3` or `node-1_0` are a ValueError in the model but parse in Python.
- ConfigParser.GetNodesDict: when the yielded values include both a non-string and a string that does not parse, the model raises the AttributeError. Python raises whichever it meets first in the set's hash order, which is not modelled.
- ConfigParser.ClusterConfigOf, ConfigParser.Elements and ConfigParser.ParseRoles: a dict's iteration order (its insertion order) is the parameter `dictOrder`, as in `Sync.World`.
- Disk.MakeDirsError: a file in place of an ancestor is a NotADirectoryError naming the path given. Python's error names the directory whose creation failed, the one just below that file.
- Common.ReplaceInFileUsingFileinput: files are read and written as `seq<char>` as they are. Python's text mode turns `\r\n` and `\r` into `\n` on reading, so a file with other line ends is rewritten with `\n` line ends; the model keeps them.
- Common.ReplaceInFileUsingOpen: the same text-mode newline translation is not modelled, for the same reason.
- UpdateHosts.UpdateEtcHosts: the same text-mode newline translation of /etc/hosts is not modelled.
- Hosts.OnenvHosts: the same text-mode newline translation of the hosts file is not modelled.
- KubernetesUtils.GetChartName: a component's labels are always a map in the model. When the Kubernetes client gives `labels` as None, `get` raises an AttributeError; that case is not modelled.
- ScenarioRunner.PrepareChart: whether `os.mkdir` or `shutil.copytree` raises for an action is the parameter `fileOp` of `ScenarioRunner.Inputs`; the file system they act on is not modelled. The intended repository add is the abstract action `AddOnedataRepo`, whose exception is the parameter `repoAdded`. As written the call raises an AttributeError (see Findings).
- Fixed-width integers do not occur. Counts, ordinals and exit codes are unbounded `int`/`nat`.

## Findings

| source | as written | input that shows it | evidently intended | confidence | as-written member | corrected member |
|---|---|---|---|---|---|---|
| scripts/utils/deployment/config_parser.py:253-263 | `parsed_groups_cfg['groups'] = groups_cfg` runs after the if/else, so disabling groups with `False` stores `False` over the `[]` just set | `groups_cfg = False` on any values dict | `groups` is `[]` when groups are disabled, as for users and spaces | high, not executed | ConfigParser.GroupsFalseOverwritten | ConfigParser.GroupsConfigEffect |
| scripts/utils/common.py:77-80 | `get_git_repo` passes `cwd=path` to `shell.check_output`, which accepts no such keyword, so every call raises a TypeError | any path | run `git config --get remote.origin.url` in `path`, and take the URL's last component without its extension | medium, not executed | Common.GetGitRepoAsWrittenFails | Common.GitRepoOfRemote |
| scripts/onenv_upgrade.py:203-209 | `parse_set_values` reads the matched stateful set's chart label before the `if stateful_set is None: exit(1)` check | a stateful-set substring that matches no set, with `--sources` | exit with 1 when no stateful set matches | high, not executed | Upgrade.MissingSetCrashes | Upgrade.StatefulSetBranch |
| scripts/onenv_hosts.py:55-65 | kept entries are copied with their own line ends, so a last entry without a trailing newline has the first added entry glued onto it | hosts text `1.2.3.4 foo` (no newline) and a pod `dev-a` at 10.0.0.1 gives the single line `1.2.3.4 foo10.0.0.1<TAB>dev-a` | each entry on its own line, so the rewrite is idempotent | high, not executed | Hosts.MissingNewlineMergesEntries | Hosts.HostsContentIdempotent |
| scripts/utils/deployment/sources_paths.py:88-91 | `locate_oz_op` calls `gen_pod_name(service, service_type, node_name)`, whose definition takes two parameters, so every call that gets past locating the sources raises a TypeError | any app whose sources are located | the pod name of the node (`<release>-<service>-<node number>`), with the location recorded under it | high, not executed | SourcesPaths.LocateOzOpAlwaysFails | SourcesPaths.LocateOzOp |
| scripts/utils/deployment/sources.py:22-23 | the script imports `SERVICE_ONECLIENT`, `ONECLIENT_BIN_PATH` and `get_service_type` from names_and_paths.py, which binds none of them; sources_paths.py:17-22 and config_parser.py:15-17 likewise | importing the module | the names are bound by names_and_paths.py, so the imports succeed | medium, not executed | NamesAndPaths.SourcesImportFails | NamesAndPaths.ImportsWithSupplied |
| scripts/utils/deployment/scenario_runner.py:140 | after a successful helm install `run_scenario` calls `deployment_data.add_release(...)`, which scripts/utils/one_env_dir/deployment_data.py does not define, so the call raises an AttributeError | any run whose helm install succeeds | the release is recorded and the run goes on to sync sources and configure the OS | high, not executed | ScenarioRunner.InstalledThenFails | ScenarioRunner.ScenarioCompleted |
| scripts/utils/deployment/sources.py:139-143 | the client worker calls `deployment_data.add_source(...)` after the first rsync, and deployment_data.py defines no such function, so the worker raises an AttributeError and never writes the sentinel | a matching oneclient pod whose sources dict has a string path | each path is recorded under the pod, the last one winning, and the sentinel is written | high, not executed | Sync.OcPlanAsWritten | Sync.OcPodStoresLast |
| scripts/utils/deployment/sources_paths.py:105 | `locate_oz_op` records the location with `deployment_data.add_source(...)`, which is not defined, so even with the pod-name call mended it raises an AttributeError | any app whose sources and release directory are found | the location is stored under the pod and app and read back by get_sources_path | high, not executed | SourcesPaths.LocateOzOpRecordFails | LegacySources.LocateOzOpThenLookup |
| scripts/utils/deployment/sources_paths.py:84 | `locate_oc` records the binary with `deployment_data.add_oneclient_deployment(...)`, which is not defined, so every call that finds a binary raises an AttributeError | any app with a oneclient binary under its located tree | the binary path is recorded under the pod substring and the location returned | high, not executed | SourcesPaths.LocateOcAlwaysFails | SourcesPaths.LocateOcOf |
| scripts/utils/deployment/config_generator.py:32 | `generate_app_config` calls `sources.locate(...)`, which scripts/utils/deployment/sources.py does not define, so with sources on and the app listed the call raises an AttributeError | any node listing one of the service's apps under `sources`, with sources enabled | the app's sources are located and its host path derived from them | high, not executed | ConfigGenerator.GenerateAppConfigAsWritten | ConfigGenerator.ProjectIsLocated |
| scripts/utils/deployment/scenario_runner.py:106-108 | without a local chart, `run_scenario` calls `helm.add_onedata_repo()`, which scripts/utils/k8s/helm.py does not define, so the call raises an AttributeError | any run without `local_chart_path` whose directories are made and copied | the onedata chart repository is added and the run goes on to parse the env config | high, not executed | ScenarioRunner.WithoutLocalChartFails | ScenarioRunner.WithoutLocalChartPrepares |

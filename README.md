# PaaSTA decision rules in Dafny

This project models three pieces of PaaSTA's tooling and proves what they
promise.

- **The Marathon replication check** (`Replication`) walks every
  `service.namespace` id that SmartStack knows. For each one it adds up the
  instances the Marathon configs expect in that namespace and compares that
  with the backends Synapse reports as available. It then sends one Sensu
  event per namespace, graded OK, WARNING or CRITICAL against two percentage
  thresholds.
- **The service wizard's suggestions** (`Autosuggest`) cover five things:
  - the least used VIP;
  - the next free port in the 13000-14000 block;
  - the next free SmartStack proxy port in the 20000-21000 block;
  - the habitats a new service should run in, with the eligible hosts of each;
  - the munging of a `--runs-on` value, where `AUTO` and all-caps habitats
    become host lists and the service yamls are loaded at most once.
- **The `paasta logs` rules** (`Logs`) cover four things:
  - which decoded log lines are shown;
  - how a line is prettified, and what is printed when it cannot be;
  - which scribe environments have to be tailed;
  - the defaults for clusters, components and levels.

Two supporting modules hold the Python 2 string operations the code relies on:

- `Strings`: `split`, `join`, `strip`, `startswith`, `in`, `upper`/`lower`,
  `int()` and `%d`.
- `Wrappers`: `Option` for None, and `Result` for a raised exception.

How the model is built:

- Steps that run a loop and update variables in the source are methods with
  loop invariants. Each one is proved equal to a specification function, or
  to a property stated outright. Examples are `get_expected_instances`,
  `check_namespaces`, `suggest_vip`, the port suggestions,
  `suggest_all_hosts`, `suggest_runs_on` and `determine_scribereader_envs`.
- The other operations are functions.
- Sensu is an `EventLog` object whose event list only ever grows.
- Inputs stand in for everything the code reads from outside: the
  configuration store, the monitoring lookups, the files of the
  configuration tree, `yaml.load`, `json.loads`, the colour functions,
  `LOG_COMPONENTS` and the scribe map.

Two behaviours of the source are modelled as written:

- A valid JSON log line with a malformed timestamp is printed as
  "Invalid JSON". `prettify_timestamp`'s ValueError reaches the same handler
  as the decoding error.
- The cluster's scribe environment is looked up eagerly, so an unmapped
  cluster is fatal even when every component names its own environment.

## Model

| member | source | states |
|---|---|---|
| `Strings.Split` | src/service_deployment_tools/check_marathon_services_replication.py:92 | `str.split` on one character: at least one piece, no piece holds the separator, exactly one piece iff the separator is absent |
| `Strings.JoinSplit` | paasta_tools/paasta_cli/cmds/logs.py:524-527 | joining the pieces of a split with the same separator gives the string back |
| `Strings.SplitJoin` | service_wizard/autosuggest.py:187-197 | splitting the join of separator-free pieces gives the pieces back |
| `Strings.Strip` | service_wizard/autosuggest.py:21 | `strip()` leaves exactly the part of the input between its leading and its trailing whitespace; that part has no whitespace at either end, and a trimmed input is unchanged |
| `Strings.StripUnique` | service_wizard/autosuggest.py:21 | only one trimmed string sits in the input with nothing but whitespace around it, so the contract of `Strip` determines its result |
| `Strings.Join` | service_wizard/autosuggest.py:197 | `sep.join(pieces)`: the pieces with the separator between consecutive ones; `JoinSplit` and `SplitJoin` prove it inverse to `Split` |
| `Strings.Upper` | service_wizard/autosuggest.py:191 | `upper()` keeps the length and upper-cases every ASCII letter in place |
| `Strings.Lower` | service_wizard/autosuggest.py:193 | `lower()` keeps the length and lower-cases every ASCII letter in place |
| `Strings.ParseInt` | service_wizard/autosuggest.py:34 | `int(s)`: surrounding whitespace, an optional sign that blanks may follow, then at least one decimal digit; None where ValueError is raised |
| `Strings.ParseIntSignThenBlanks` | service_wizard/autosuggest.py:34 | a sign, blanks and a digit string read as the signed value of the digits: `int("+ 5") == 5`, `int("- 5") == -5` |
| `Strings.ParseIntOfIntToString` | service_wizard/autosuggest.py:34 | `int('%d' % i) == i` for every integer |
| `Replication.SplitId` | src/service_deployment_tools/check_marathon_services_replication.py:86-92 | split_id fails (IndexError) exactly when the id holds no spacer |
| `Replication.SplitIdRoundTrip` | src/service_deployment_tools/check_marathon_services_replication.py:86-92 | splitting `service.namespace` gives back the service and namespace when neither holds the spacer |
| `Replication.SplitIdPrefix` | src/service_deployment_tools/check_marathon_services_replication.py:86-92 | an accepted id yields spacer-free names that spell the whole id or the part before its second spacer; later pieces are ignored |
| `Replication.EntryCount` | src/service_deployment_tools/check_marathon_services_replication.py:106-109 | one instance fails exactly when its config cannot be read, or it registers in the namespace and its instance count cannot be read |
| `Replication.CountOver` | src/service_deployment_tools/check_marathon_services_replication.py:104-110 | the sum of the instance counts of the listed instances registered in the namespace, failing if any read fails; `CountOverFails`, `CountOverAppend` and `CountOverPermutation` state its properties |
| `Replication.ExpectedInstances` | src/service_deployment_tools/check_marathon_services_replication.py:95-110 | get_expected_instances as a value: fails when the instance list cannot be read, else the count over that list |
| `Replication.GetExpectedInstances` | src/service_deployment_tools/check_marathon_services_replication.py:95-110 | the loop returns the sum over the listed instances registered in the namespace (nerve_ns, else the instance name), or fails where any read raises |
| `Replication.CountOverFails` | src/service_deployment_tools/check_marathon_services_replication.py:104-110 | the count fails iff some instance's read fails, wherever it is listed |
| `Replication.CountOverNoMatch` | src/service_deployment_tools/check_marathon_services_replication.py:107-109 | instances registered in other namespaces contribute nothing: with none matching the count is 0 |
| `Replication.CountOverAppend` | src/service_deployment_tools/check_marathon_services_replication.py:104-110 | the count of a concatenated instance list adds the counts of its parts |
| `Replication.CountOverMoveFront` | src/service_deployment_tools/check_marathon_services_replication.py:104-110 | moving one instance to the front leaves the count unchanged |
| `Replication.CountOverPermutation` | src/service_deployment_tools/check_marathon_services_replication.py:104-110 | the expected count does not depend on the order the instances are listed in |
| `Replication.Classify` | src/service_deployment_tools/check_marathon_services_replication.py:147-155 | the grade, with CRITICAL tested before WARNING; `ClassifyByRatio` states it against the exact ratio |
| `Replication.RatioAtMostIsExact` | src/service_deployment_tools/check_marathon_services_replication.py:140-150 | the integer comparison `available*100 <= pct*expected` decides `ratio <= pct` for the exact ratio |
| `Replication.ClassifyByRatio` | src/service_deployment_tools/check_marathon_services_replication.py:140-155 | CRITICAL iff ratio <= crit; WARNING iff crit < ratio <= warn; OK iff the ratio is above both |
| `Replication.ClassifyMonotone` | src/service_deployment_tools/check_marathon_services_replication.py:147-155 | more available backends never give a worse grade |
| `Replication.WarningNeedsCritBelowWarn` | src/service_deployment_tools/check_marathon_services_replication.py:147-152 | WARNING is only possible when crit < warn |
| `Replication.DefaultThresholdsNeverWarn` | src/service_deployment_tools/check_marathon_services_replication.py:68-75 | with the command line's defaults (warn 75, crit 90) no namespace is ever graded WARNING |
| `Replication.DocumentedThresholdsWarn` | src/service_deployment_tools/check_marathon_services_replication.py:14-19 | with the documented thresholds (75/50) WARNING is sent exactly for 50% < ratio <= 75%, and every grade occurs |
| `Replication.NotFoundOutput` | src/service_deployment_tools/check_marathon_services_replication.py:135 | the text sent for a namespace SmartStack has no entry for |
| `Replication.RatioOutput` | src/service_deployment_tools/check_marathon_services_replication.py:141-145 | the text naming the namespace, the available and expected counts and both thresholds |
| `Replication.Decide` | src/service_deployment_tools/check_marathon_services_replication.py:122-155 | what the loop does for one namespace: skip it, send CRITICAL "not found", or send its graded status; `DecideCases` states the cases |
| `Replication.DecideCases` | src/service_deployment_tools/check_marathon_services_replication.py:122-155 | a namespace is skipped if its id or configs are unusable or nothing is expected; it is CRITICAL "not found" when SmartStack has no entry; otherwise it is graded by its ratio and reported with the ratio message for its available and expected counts |
| `Replication.AlertEvent` | src/service_deployment_tools/check_marathon_services_replication.py:35-57 | the event send_event builds for a namespace, or none when the service has no team; `AlertEventProperties` states its fields |
| `Replication.AlertEventProperties` | src/service_deployment_tools/check_marathon_services_replication.py:35-57 | no event without a team; otherwise the event carries the check name `check_marathon_services_replication.<service>.<namespace>`, the status, the output, the team, alert_after 2m, check_every 1m and realert_every -1 |
| `Replication.CheckNamesDistinct` | src/service_deployment_tools/check_marathon_services_replication.py:44 | distinct well-formed namespaces get distinct check names |
| `Replication.Alerts` | src/service_deployment_tools/check_marathon_services_replication.py:113-156 | the events of a whole run, namespace by namespace in list order; `AlertsAppend`, `AlertsBounded` and `AlertsSingle` state its properties |
| `Replication.AlertsAppend` | src/service_deployment_tools/check_marathon_services_replication.py:122-156 | namespaces are handled independently: the events of a concatenation are the concatenated events |
| `Replication.AlertsForOne` | src/service_deployment_tools/check_marathon_services_replication.py:122-156 | one event for a graded namespace whose service has a team, none otherwise |
| `Replication.AlertsBounded` | src/service_deployment_tools/check_marathon_services_replication.py:113-156 | a run sends at most one event per namespace, each to a non-empty team |
| `Replication.SkippedNamespaceIsolated` | src/service_deployment_tools/check_marathon_services_replication.py:124-132 | a skipped namespace leaves the other namespaces' events unchanged |
| `Replication.AlertsSingle` | src/service_deployment_tools/check_marathon_services_replication.py:122-156 | the run over a single namespace sends exactly that namespace's events |
| `Replication.EventLog.constructor` | src/service_deployment_tools/check_marathon_services_replication.py:57 | the Sensu log starts empty |
| `Replication.EventLog.Emit` | src/service_deployment_tools/check_marathon_services_replication.py:57 | sending appends the event and changes nothing else |
| `Replication.SendEvent` | src/service_deployment_tools/check_marathon_services_replication.py:35-57 | the log grows by the namespace's event when the service has a team, and is unchanged otherwise |
| `Replication.CheckNamespace` | src/service_deployment_tools/check_marathon_services_replication.py:122-156 | one pass of the loop appends exactly the namespace's events |
| `Replication.AlertsSnoc` | src/service_deployment_tools/check_marathon_services_replication.py:113-156 | the events of one more namespace follow those of the namespaces before it |
| `Replication.CheckNamespaces` | src/service_deployment_tools/check_marathon_services_replication.py:113-156 | the log grows by the events of every namespace, in list order |
| `Autosuggest.NamedVip` | service_wizard/autosuggest.py:19-22 | a file names a VIP iff it is called `vip` and its stripped contents are non-empty; the VIP is those stripped contents |
| `Autosuggest.NamedVips` | service_wizard/autosuggest.py:18-22 | one reading per walked file, in walk order |
| `Autosuggest.OccurrencesPositive` | service_wizard/autosuggest.py:18-23 | a VIP has a positive count iff some file names it |
| `Autosuggest.NoOccurrences` | service_wizard/autosuggest.py:24 | a count that is empty for every VIP means no file names any VIP |
| `Autosuggest.OccurrencesSnoc` | service_wizard/autosuggest.py:18-23 | one more file adds one to the count of the VIP it names and nothing to the others |
| `Autosuggest.CountVips` | service_wizard/autosuggest.py:17-23 | `vip_counts` holds exactly the named VIPs, each with the number of files naming it |
| `Autosuggest.LeastCounted` | service_wizard/autosuggest.py:26-27 | the key returned is in the dict and no other key has a smaller count |
| `Autosuggest.VipCountPositive` | service_wizard/autosuggest.py:18-23 | a VIP is counted iff some `vip` file's stripped contents name it |
| `Autosuggest.SuggestVip` | service_wizard/autosuggest.py:15-27 | NoVipError iff no `vip` file names a VIP; otherwise a named VIP whose count is minimal among all named VIPs |
| `Autosuggest.NextPortInBand` | service_wizard/autosuggest.py:39-47 | fails iff some selected file fails to read; otherwise one more than the largest in-band port (or 1), which is above every in-band port |
| `Autosuggest.PortFromFile` | service_wizard/autosuggest.py:29-35 | an empty port file (after stripping) reads as 0; otherwise `int()` of its stripped contents, failing where that raises |
| `Autosuggest.SuggestPort` | service_wizard/autosuggest.py:29-47 | the same for files ending in `port` and the band (13000, 14000); an empty file counts as 0 |
| `Autosuggest.ProxyPortOf` | service_wizard/autosuggest.py:49-60 | 0 without a `smartstack` stanza or without its `proxy_port`; otherwise `int()` of the value (a bool gives 0 or 1, a float is truncated toward zero, a string must be a decimal integer); fails where loading the yaml, `.get` on a stanza that is not a mapping, or `int()` raises |
| `Autosuggest.TruncateTowardZero` | service_wizard/autosuggest.py:59 | `int()` of a float drops its fraction: the result is the integer nearest the value on the side of zero |
| `Autosuggest.SuggestSmartstackProxyPort` | service_wizard/autosuggest.py:49-72 | the same for `service.yaml` files and the band (20000, 21000); a missing `smartstack` or `proxy_port` counts as 0 |
| `Autosuggest.IsStageHabitat` | service_wizard/autosuggest.py:74-75 | a habitat is stage iff its name starts with `stage` (see `HabitatKindsDisjoint`) |
| `Autosuggest.IsProdHabitat` | service_wizard/autosuggest.py:77-83 | a habitat is prod iff it is one of `sfo1`, `iad1`, `sfo2` |
| `Autosuggest.IsDevHabitat` | service_wizard/autosuggest.py:85-86 | a habitat is dev iff its name starts with `dev` |
| `Autosuggest.HabitatKindsDisjoint` | service_wizard/autosuggest.py:74-86 | no habitat is both stage and prod, stage and dev, or prod and dev |
| `Autosuggest.Keys` | service_wizard/autosuggest.py:95 | the keys of a dict, one per entry, in order |
| `Autosuggest.Filter` | service_wizard/autosuggest.py:95-102 | a list comprehension with a condition keeps exactly the keys that satisfy it |
| `Autosuggest.FilterCounts` | service_wizard/autosuggest.py:95-102 | each key that satisfies the condition is kept as many times as it occurs in the input; every other key is dropped |
| `Autosuggest.FilterAppend` | service_wizard/autosuggest.py:95-102 | the comprehension keeps input order: filtering a concatenation is the concatenation of the filtered parts |
| `Autosuggest.Lookup` | service_wizard/autosuggest.py:140-141 | `dict.get` returns None iff the key is absent, and otherwise the value of the first entry stored under the key |
| `Autosuggest.DiscoverHabitats` | service_wizard/autosuggest.py:88-105 | the stage habitats in use, the prod habitats, the dev habitats in use; `DiscoverHabitatsShape` and `DiscoverHabitatsMembers` state what it lists and in what order |
| `Autosuggest.DiscoverHabitatsShape` | service_wizard/autosuggest.py:88-105 | the stage and dev habitats in use plus all three prod habitats, stages first, then sfo1, iad1, sfo2, then devs |
| `Autosuggest.DiscoverHabitatsMembers` | service_wizard/autosuggest.py:88-105 | a habitat is discovered iff it is prod, or it is in use and stage or dev |
| `Autosuggest.IsSrvMachine` | service_wizard/autosuggest.py:107-124 | stage needs `<habitat>services*`, prod needs `srv*`, dev needs `srv*` or `devservices*`, any other habitat accepts any host |
| `Autosuggest.GetProdSrvHosts` | service_wizard/autosuggest.py:126-128 | the comma-joined `srv*` hosts of a prod habitat's histogram, in histogram order (see `ProdSuggestionIsSrvHosts`) |
| `Autosuggest.LeastUsedIndex` | service_wizard/autosuggest.py:135-136 | none iff no host is eligible; otherwise an eligible host running no more services than any other eligible host |
| `Autosuggest.GetLeastUsedHost` | service_wizard/autosuggest.py:130-137 | fails (ValueError from min) iff no host of the histogram is eligible |
| `Autosuggest.SuggestHostsForHabitat` | service_wizard/autosuggest.py:139-149 | "" for a habitat not in use; fails iff a non-prod habitat in use has no eligible host |
| `Autosuggest.SuggestedHostIsLeastUsed` | service_wizard/autosuggest.py:148-149 | a non-prod habitat's suggestion is one of its hosts, eligible and least used |
| `Autosuggest.ProdSuggestionIsSrvHosts` | service_wizard/autosuggest.py:126-128 | a prod habitat's suggestion joins exactly its `srv*` hosts |
| `Autosuggest.SuggestEachMeaning` | service_wizard/autosuggest.py:152-154 | one suggestion per habitat, in order; the list fails iff some habitat's suggestion fails |
| `Autosuggest.AllHostsFails` | service_wizard/autosuggest.py:151-155 | suggest_all_hosts fails iff some stage or dev habitat in use has no eligible host |
| `Autosuggest.AllHosts` | service_wizard/autosuggest.py:151-155 | suggest_all_hosts as a value: the comma-joined suggestions of the discovered habitats, or the first failure; `AllHostsFails` states when it fails |
| `Autosuggest.SuggestAllHosts` | service_wizard/autosuggest.py:151-155 | returns the comma-joined suggestions of the discovered habitats, or the first failure |
| `Autosuggest.SuggestHabitats` | service_wizard/autosuggest.py:152-154 | the loop collects each habitat's suggestion in order and stops at the first failure |
| `Autosuggest.MungeToken` | service_wizard/autosuggest.py:188-195 | `AUTO` becomes all hosts, a token equal to its own upper-casing the hosts of its lower-cased habitat, anything else itself |
| `Autosuggest.MungeTokens` | service_wizard/autosuggest.py:187-195 | each token munged in order, failing at the first token whose suggestion fails |
| `Autosuggest.RunsOn` | service_wizard/autosuggest.py:176-197 | suggest_runs_on as a value: `AUTO` when no value is given, split on commas, munged and joined with commas |
| `Autosuggest.MungeTokensKeepsPlainTokens` | service_wizard/autosuggest.py:187-195 | one entry per token; a token that is neither AUTO nor all-caps is copied unchanged in its place |
| `Autosuggest.MungeTokensOfPlain` | service_wizard/autosuggest.py:194-195 | a list of plain tokens munges to itself |
| `Autosuggest.PlainRunsOnUnchanged` | service_wizard/autosuggest.py:157-197 | a runs_on of plain host names comes back unchanged |
| `Autosuggest.AnyNeedsYamlsExtend` | service_wizard/autosuggest.py:187-192 | one more token asks for suggestions iff the earlier tokens did or that token does |
| `Autosuggest.SuggestRunsOn` | service_wizard/autosuggest.py:157-197 | returns the munged runs_on, and loads the service yamls once if some token is AUTO or all-caps, never otherwise |
| `Autosuggest.Memoized` | service_wizard/autosuggest.py:178-184 | the memo holds the loaded yamls after the call, and the loader runs at most once in all |
| `Logs.Get` | paasta_tools/paasta_cli/cmds/logs.py:171 | `dict.get` is None iff the key is absent, else the stored value |
| `Logs.PaastaLogLinePassesFilter` | paasta_tools/paasta_cli/cmds/logs.py:160-177 | paasta_log_line_passes_filter; `PaastaFilterMeaning` states when a line passes |
| `Logs.PaastaFilterMeaning` | paasta_tools/paasta_cli/cmds/logs.py:160-177 | a line is shown iff it decodes and its level, component and cluster (or `N/A`) were all asked for |
| `Logs.PaastaFilterMonotone` | paasta_tools/paasta_cli/cmds/logs.py:170-177 | asking for more levels, components or clusters never hides a shown line |
| `Logs.AnyClusterLinesShownEverywhere` | paasta_tools/paasta_cli/cmds/logs.py:173-176 | a line for cluster `N/A` is shown whichever clusters were asked for |
| `Logs.MarathonLogLinePassesFilter` | paasta_tools/paasta_cli/cmds/logs.py:231-240 | a decoded line passes iff `format_job_id(service, '')` occurs in its message (empty when missing) |
| `Logs.ChronosLogLinePassesFilter` | paasta_tools/paasta_cli/cmds/logs.py:243-252 | a decoded line passes iff `compose_job_id(service, '')` occurs in its message (empty when missing) |
| `Logs.MessageMentionsMeaning` | paasta_tools/paasta_cli/cmds/logs.py:231-252 | the marathon and chronos filters pass iff the line decodes and the job-id prefix occurs in its message; without a message only the empty prefix passes |
| `Logs.JobMessagePasses` | paasta_tools/paasta_cli/cmds/logs.py:240 | a message that begins with the job-id prefix passes |
| `Logs.PrettifyLevel` | paasta_tools/paasta_cli/cmds/logs.py:311-326 | "" when at most one level is requested; otherwise bold `[event]` for events and grey `[level]` for other levels |
| `Logs.PrettifyComponent` | paasta_tools/paasta_cli/cmds/logs.py:304-308 | the coloured `[component]`, or `UNPRETTIFIABLE COMPONENT <name>` for an unknown component |
| `Logs.PrettifyLogLine` | paasta_tools/paasta_cli/cmds/logs.py:329-351 | prettify_log_line, reading the fields in the source's order; `PrettifyLogLineOutcomes` states its three outcomes |
| `Logs.PrettifyLogLineOutcomes` | paasta_tools/paasta_cli/cmds/logs.py:329-351 | "Invalid JSON: line" when the line does not decode or its timestamp does not convert; "JSON missing keys: line" when a field is missing; otherwise the formatted line |
| `Logs.PrettyLineFrame` | paasta_tools/paasta_cli/cmds/logs.py:337-344 | a prettified line starts with its timestamp and ends with its message |
| `Logs.SingleLevelLine` | paasta_tools/paasta_cli/cmds/logs.py:337-344 | with one level requested, the level is left out and two spaces follow the dash |
| `Logs.ClusterToScribeEnv` | paasta_tools/paasta_cli/cmds/logs.py:141-157 | the cluster's scribe env when the map has one; otherwise the program exits |
| `Logs.ComponentEnv` | paasta_tools/paasta_cli/cmds/logs.py:136 | fails for a component missing from LOG_COMPONENTS (KeyError) and for an unmapped cluster, since the default is computed first; otherwise the component's `source_env`, else the cluster's env |
| `Logs.ComponentEnvs` | paasta_tools/paasta_cli/cmds/logs.py:132-137 | the env of each component in order, failing at the first unknown component or unmapped cluster |
| `Logs.ScribereaderEnvs` | paasta_tools/paasta_cli/cmds/logs.py:125-138 | the set of the components' envs, or the first failure; `ScribereaderEnvsMeaning` states its members |
| `Logs.DetermineScribereaderEnvs` | paasta_tools/paasta_cli/cmds/logs.py:125-138 | the loop returns the set of the components' envs, or the first failure |
| `Logs.ComponentEnvsStopsAtFailure` | paasta_tools/paasta_cli/cmds/logs.py:133-137 | once a component fails, the whole list fails with that error |
| `Logs.ComponentEnvsMeaning` | paasta_tools/paasta_cli/cmds/logs.py:132-137 | succeeds iff every component is known and, if there are components, the cluster is mapped; each env is the component's source_env, else the cluster's |
| `Logs.ScribereaderEnvsMeaning` | paasta_tools/paasta_cli/cmds/logs.py:125-138 | the returned set holds exactly the components' envs |
| `Logs.UnmappedClusterAlwaysFails` | paasta_tools/paasta_cli/cmds/logs.py:136 | an unmapped cluster is fatal even when every component has its own source_env |
| `Logs.LogsDefaults` | paasta_tools/paasta_cli/cmds/logs.py:521-536 | the clusters, components and levels paasta_logs tails, from its arguments and defaults |
| `Logs.LogsDefaultsRoundTrip` | paasta_tools/paasta_cli/cmds/logs.py:521-529 | explicit clusters and components are at least one comma-free name and join with commas back into the argument; without one, the deployed clusters and the default components |
| `Logs.LevelShownOnlyInDebug` | paasta_tools/paasta_cli/cmds/logs.py:531-536 | outside debug mode no line shows its level; in debug mode every line does |
| `Logs.DebugLinesHiddenOutsideDebug` | paasta_tools/paasta_cli/cmds/logs.py:531-536 | outside debug mode a debug-level line is never shown |

## Left out

- Command-line parsing, logging, `main` and the Synapse query are not modelled. The available-backends map and the namespace list are inputs.
- `marathon_tools` is not part of this model. `ID_SPACER` is taken to be `.`. The instance list, the config reads and `get_instances` are input functions. None stands for the exceptions the check catches.
- Exceptions outside that caught set are not modelled, for example a TypeError from a malformed config.
- Instance and backend counts are natural numbers. A negative count from a config is not modelled.
- The floating-point ratio is replaced by exact integer comparison. Rounding of the float product at the exact threshold boundary is not modelled.
- `pysensu_yelp.send_event` is an append to `EventLog`. `monitoring_tools` lookups are input functions.
- The walk of the configuration tree is a sequence of files (base name, contents), in walk order. File reading is not modelled.
- `yaml.load` is an input function into a small document shape. Floats are real numbers, so an infinite or NaN `proxy_port` (where `int()` raises) is not modelled. A top-level document that is not a mapping is treated as an error.
- `service_configuration.load_service_yamls` and `collate_service_yamls` are replaced by their result, passed in as `loaded`. The printed warnings of `suggest_hosts_for_habitat` are output only and are not modelled.
- `get_least_used_host` with its default `habitat=None` is not modelled. Every caller passes a habitat.
- Autosuggest.SuggestVip: does not say which of several equally rare VIPs is returned, because that follows dict iteration order.
- Autosuggest.LeastUsedIndex: does not say which of several equally used hosts is chosen, because the source's choice follows dict iteration order.
- Autosuggest.DiscoverHabitatsShape: the order of the stage and dev habitats within their blocks follows the dict's key order, and the model takes the input order.
- `json.loads` is an input function that yields string fields or None. Non-object JSON and non-string field values are not modelled.
- `PaastaColors`, `LOG_COMPONENTS`, `format_job_id`, `compose_job_id`, the scribe map and `list_clusters` are inputs.
- `prettify_timestamp`, `extract_utc_timestamp_from_log_line` and the marathon and chronos line parsers are not modelled: they rely on regular expressions, isodate and local time zones. `prettify_timestamp` is an input that may fail.
- `scribe_tail`, `tail_paasta_logs`, `print_log`, and the scribereader and tailing dispatch of `paasta_logs` are not modelled: they are processes, queues and network streams.
- `add_subparser`, `build_component_descriptions`, `prefix` and `completer_clusters` are not modelled: they are help text and completion.
- service_wizard/questions.py is not modelled: it is an interactive prompt loop with constant stanzas. service_setup/template.py is not modelled: it is a file-existence check around `string.Template`.
- Case mapping and whitespace are ASCII only, as Python 2 byte strings have them.
- `paasta_tools/utils.py` is not part of this model. `ANY_CLUSTER` is taken to be `N/A` and `DEFAULT_LOGLEVEL` to be `event`.
- Autosuggest.DiscoverHabitats: the collated service yamls and host histograms are association lists, and the model does not require their keys to be distinct as a dict's are. With a repeated habitat the model would list it twice, and `Lookup` takes the first entry.

## Findings

| source | as written | input that shows it | evidently intended | confidence | as-written member | corrected member |
|---|---|---|---|---|---|---|
| src/service_deployment_tools/check_marathon_services_replication.py:68-75 | the defaults are warn 75 and crit 90. Critical is tested first, so every ratio at or below 75 is already CRITICAL and WARNING is never sent | 60 of 100 backends with default thresholds: CRITICAL | WARNING below 75% and CRITICAL below 50%, as the module documentation says (lines 17-19) | medium; not executed | `Replication.DefaultThresholdsNeverWarn` | `Replication.DocumentedThresholdsWarn` |

The model's checks take both thresholds as parameters. The defaults are used
only to exhibit this discrepancy.

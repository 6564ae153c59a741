/**
 * The decision rules of `paasta logs`: which log lines are shown, how a line
 * is prettified (and what is printed instead when it cannot be), which scribe
 * environments have to be tailed, and the defaults for levels, components and
 * clusters.
 *
 * json.loads becomes an uninterpreted `parse` that yields a record of string
 * fields, or None where it raises ValueError. LOG_COMPONENTS, the scribe map
 * from the system paasta config, the colouring functions, the job-id
 * formatters and prettify_timestamp are inputs.
 */
module Logs {
  import opened Wrappers
  import opened Strings

  /** The cluster a log line carries when it concerns every cluster. */
  const AnyCluster: string := "N/A"

  /** The level every PaaSTA event is logged at. */
  const DefaultLogLevel: string := "event"

  /** The components shown when none are asked for. */
  const DefaultComponents: seq<string> := ["build", "deploy", "monitoring"]

  /** A decoded log line: its JSON object's string fields. */
  type Record = map<string, string>

  /** `record.get(key)` */
  function Get(record: Record, key: string): (r: Option<string>)
    ensures r.Some? <==> key in record
    ensures r.Some? ==> r.value == record[key]
  {
    if key in record then Some(record[key]) else None
  }

  /** `v in xs` for a value that may be None (None is in no list of strings). */
  predicate InList(v: Option<string>, xs: seq<string>) {
    v.Some? && v.value in xs
  }

  // ---------------------------------------------------------------------------
  // Filters
  // ---------------------------------------------------------------------------

  /**
   * paasta_log_line_passes_filter: an undecodable line is never shown; a
   * decoded one is shown when its level and component were asked for and its
   * cluster was asked for or is the any-cluster marker.
   */
  predicate PaastaLogLinePassesFilter(parse: string -> Option<Record>, line: string, levels: seq<string>,
                                      service: string, components: seq<string>, clusters: seq<string>) {
    match parse(line)
    case None => false
    case Some(record) =>
      && InList(Get(record, "level"), levels)
      && InList(Get(record, "component"), components)
      && (InList(Get(record, "cluster"), clusters) || Get(record, "cluster") == Some(AnyCluster))
  }

  /** The filter, field by field. */
  lemma PaastaFilterMeaning(parse: string -> Option<Record>, line: string, levels: seq<string>,
                            service: string, components: seq<string>, clusters: seq<string>)
    ensures PaastaLogLinePassesFilter(parse, line, levels, service, components, clusters) <==>
      && parse(line).Some?
      && var record := parse(line).value;
         && "level" in record && record["level"] in levels
         && "component" in record && record["component"] in components
         && "cluster" in record && (record["cluster"] in clusters || record["cluster"] == AnyCluster)
  {
  }

  /** Asking for more levels, components or clusters never hides a line that was shown. */
  lemma PaastaFilterMonotone(parse: string -> Option<Record>, line: string, service: string,
                             levels: seq<string>, moreLevels: seq<string>,
                             components: seq<string>, moreComponents: seq<string>,
                             clusters: seq<string>, moreClusters: seq<string>)
    requires forall x :: x in levels ==> x in moreLevels
    requires forall x :: x in components ==> x in moreComponents
    requires forall x :: x in clusters ==> x in moreClusters
    requires PaastaLogLinePassesFilter(parse, line, levels, service, components, clusters)
    ensures PaastaLogLinePassesFilter(parse, line, moreLevels, service, moreComponents, moreClusters)
  {
  }

  /** A line marked for any cluster is shown whichever clusters were asked for, even none. */
  lemma AnyClusterLinesShownEverywhere(parse: string -> Option<Record>, line: string, levels: seq<string>,
                                       service: string, components: seq<string>, clusters: seq<string>)
    requires parse(line).Some? && Get(parse(line).value, "cluster") == Some(AnyCluster)
    ensures PaastaLogLinePassesFilter(parse, line, levels, service, components, clusters) <==>
            PaastaLogLinePassesFilter(parse, line, levels, service, components, [])
  {
  }

  /**
   * The check the marathon and chronos filters share: the line decodes and its
   * message (empty when absent) contains the service's job-id prefix.
   */
  predicate MessageMentions(parse: string -> Option<Record>, line: string, jobIdPrefix: string) {
    match parse(line)
    case None => false
    case Some(record) => IsSubstring(jobIdPrefix, Get(record, "message").GetOr(""))
  }

  /** marathon_log_line_passes_filter, with marathon_tools.format_job_id as `formatJobId`. */
  predicate MarathonLogLinePassesFilter(parse: string -> Option<Record>, formatJobId: (string, string) -> string,
                                        line: string, service: string) {
    MessageMentions(parse, line, formatJobId(service, ""))
  }

  /** chronos_log_line_passes_filter, with chronos_tools.compose_job_id as `composeJobId`. */
  predicate ChronosLogLinePassesFilter(parse: string -> Option<Record>, composeJobId: (string, string) -> string,
                                       line: string, service: string) {
    MessageMentions(parse, line, composeJobId(service, ""))
  }

  /**
   * The job filters pass exactly when the message holds the prefix at some
   * position; a line without a message passes only for an empty prefix.
   */
  lemma MessageMentionsMeaning(parse: string -> Option<Record>, line: string, jobIdPrefix: string)
    ensures MessageMentions(parse, line, jobIdPrefix) <==>
      parse(line).Some? && exists k :: OccursAt(jobIdPrefix, Get(parse(line).value, "message").GetOr(""), k)
    ensures parse(line).Some? && "message" !in parse(line).value ==>
      (MessageMentions(parse, line, jobIdPrefix) <==> jobIdPrefix == "")
  {
    if parse(line).Some? && "message" !in parse(line).value && jobIdPrefix != "" {
      assert forall k :: !OccursAt(jobIdPrefix, "", k);
    }
  }

  /** A message that starts with the job-id prefix always passes. */
  lemma JobMessagePasses(parse: string -> Option<Record>, line: string, jobIdPrefix: string)
    requires parse(line).Some? && "message" in parse(line).value
    requires StartsWith(parse(line).value["message"], jobIdPrefix)
    ensures MessageMentions(parse, line, jobIdPrefix)
  {
    assert OccursAt(jobIdPrefix, parse(line).value["message"], 0);
  }

  // ---------------------------------------------------------------------------
  // Prettifying
  // ---------------------------------------------------------------------------

  /** The colouring functions of PaastaColors that the prettifier uses. */
  datatype Palette = Palette(bold: string -> string, grey: string -> string)

  /** An entry of LOG_COMPONENTS: the component's colour and, for some, a fixed scribe environment. */
  datatype ComponentInfo = ComponentInfo(color: string -> string, sourceEnv: Option<string>)

  /** LOG_COMPONENTS */
  type LogComponents = map<string, ComponentInfo>

  /**
   * prettify_level: nothing when at most one level is displayed (the level is
   * then unambiguous); otherwise the bracketed level, bold for events and grey
   * for everything else.
   */
  function PrettifyLevel(palette: Palette, level: string, requestedLevels: seq<string>): (r: string)
    ensures |requestedLevels| <= 1 ==> r == ""
    ensures |requestedLevels| > 1 && level == "event" ==> r == palette.bold("[event]")
    ensures |requestedLevels| > 1 && level != "event" ==> r == palette.grey("[" + level + "]")
  {
    if |requestedLevels| > 1 then
      if level == "event" then
        assert "[" + level + "]" == "[event]";
        palette.bold("[" + level + "]")
      else palette.grey("[" + level + "]")
    else ""
  }

  /** prettify_component: the bracketed name in the component's colour, or a marker for an unknown component. */
  function PrettifyComponent(logComponents: LogComponents, component: string): (r: string)
    ensures component !in logComponents ==> r == "UNPRETTIFIABLE COMPONENT " + component
    ensures component in logComponents ==> r == logComponents[component].color("[" + component + "]")
  {
    if component in logComponents then logComponents[component].color("[" + component + "]")
    else "UNPRETTIFIABLE COMPONENT " + component
  }

  /** The fields prettify_log_line reads from a record, in the order it reads them. */
  const PrettyFields: seq<string> := ["level", "timestamp", "component", "cluster", "instance", "message"]

  /** The record has every field prettify_log_line reads. */
  predicate HasPrettyFields(record: Record) {
    forall k :: k in PrettyFields ==> k in record
  }

  /** The line prettify_log_line prints for a record that has everything it needs. */
  function PrettyLine(prettyTimestamp: string, prettyComponent: string, cluster: string, instance: string,
                      prettyLevel: string, message: string): string {
    prettyTimestamp + " " + prettyComponent + " [" + cluster + "] [" + instance + "] - " + prettyLevel + " " + message
  }

  /**
   * prettify_log_line. `prettifyTimestamp` stands for prettify_timestamp and
   * is None where strptime raises ValueError; that ValueError is caught by the
   * same handler as the JSON decoding error. Fields are read in the order of
   * PrettyFields, so a missing field is only reported once the timestamp
   * before it has converted.
   */
  function PrettifyLogLine(parse: string -> Option<Record>, prettifyTimestamp: string -> Option<string>,
                           logComponents: LogComponents, palette: Palette,
                           line: string, requestedLevels: seq<string>): string {
    match parse(line)
    case None => "Invalid JSON: " + line
    case Some(record) =>
      if "level" !in record || "timestamp" !in record then "JSON missing keys: " + line
      else
        var prettyLevel := PrettifyLevel(palette, record["level"], requestedLevels);
        match prettifyTimestamp(record["timestamp"])
        case None => "Invalid JSON: " + line
        case Some(ts) =>
          if "component" !in record || "cluster" !in record || "instance" !in record || "message" !in record then
            "JSON missing keys: " + line
          else
            PrettyLine(ts, PrettifyComponent(logComponents, record["component"]), record["cluster"],
                       record["instance"], prettyLevel, record["message"])
  }

  /**
   * The three outcomes of prettify_log_line: "Invalid JSON" when the line does
   * not decode or (having level and timestamp) its timestamp does not convert,
   * "JSON missing keys" when a field is missing before that or after it, and
   * the pretty line otherwise.
   */
  lemma PrettifyLogLineOutcomes(parse: string -> Option<Record>, prettifyTimestamp: string -> Option<string>,
                                logComponents: LogComponents, palette: Palette,
                                line: string, requestedLevels: seq<string>)
    ensures var r := PrettifyLogLine(parse, prettifyTimestamp, logComponents, palette, line, requestedLevels);
      && (parse(line).None? ==> r == "Invalid JSON: " + line)
      && (parse(line).Some? ==>
            var record := parse(line).value;
            && ("level" !in record || "timestamp" !in record ==> r == "JSON missing keys: " + line)
            && ("level" in record && "timestamp" in record && prettifyTimestamp(record["timestamp"]).None? ==>
                  r == "Invalid JSON: " + line)
            && ("timestamp" in record && prettifyTimestamp(record["timestamp"]).Some? && !HasPrettyFields(record) ==>
                  r == "JSON missing keys: " + line)
            && (HasPrettyFields(record) && prettifyTimestamp(record["timestamp"]).Some? ==>
                  r == PrettyLine(prettifyTimestamp(record["timestamp"]).value,
                                  PrettifyComponent(logComponents, record["component"]),
                                  record["cluster"], record["instance"],
                                  PrettifyLevel(palette, record["level"], requestedLevels),
                                  record["message"])))
  {
    if parse(line).Some? {
      var record := parse(line).value;
      assert HasPrettyFields(record) <==>
        && "level" in record && "timestamp" in record && "component" in record
        && "cluster" in record && "instance" in record && "message" in record
      by {
        assert PrettyFields[0] == "level" && PrettyFields[1] == "timestamp" && PrettyFields[2] == "component";
        assert PrettyFields[3] == "cluster" && PrettyFields[4] == "instance" && PrettyFields[5] == "message";
      }
    }
  }

  /** Every prettified line starts with its timestamp and ends with its message. */
  lemma PrettyLineFrame(prettyTimestamp: string, prettyComponent: string, cluster: string, instance: string,
                        prettyLevel: string, message: string)
    ensures var r := PrettyLine(prettyTimestamp, prettyComponent, cluster, instance, prettyLevel, message);
      StartsWith(r, prettyTimestamp + " ") && EndsWith(r, " " + message)
  {
    var r := PrettyLine(prettyTimestamp, prettyComponent, cluster, instance, prettyLevel, message);
    var head := prettyTimestamp + " " + prettyComponent + " [" + cluster + "] [" + instance + "] - " + prettyLevel;
    assert r == head + (" " + message);
    assert r == (prettyTimestamp + " ") + (prettyComponent + " [" + cluster + "] [" + instance + "] - " + prettyLevel + " " + message);
  }

  /** With a single level displayed the level is left out, leaving two spaces after the dash. */
  lemma SingleLevelLine(palette: Palette, level: string, requestedLevels: seq<string>,
                        prettyTimestamp: string, prettyComponent: string, cluster: string, instance: string, message: string)
    requires |requestedLevels| <= 1
    ensures PrettyLine(prettyTimestamp, prettyComponent, cluster, instance, PrettifyLevel(palette, level, requestedLevels), message)
         == prettyTimestamp + " " + prettyComponent + " [" + cluster + "] [" + instance + "] -  " + message
  {
  }

  // ---------------------------------------------------------------------------
  // Scribe environments
  // ---------------------------------------------------------------------------

  /** Why the scribe environments cannot be determined. */
  datatype EnvError =
    | UnknownComponent(component: string) // KeyError from LOG_COMPONENTS[component]
    | UnknownCluster(cluster: string)     // sys.exit(1) from cluster_to_scribe_env

  /** cluster_to_scribe_env: the cluster's entry in the scribe map; the program exits when it has none. */
  function ClusterToScribeEnv(scribeMap: map<string, string>, cluster: string): (r: Result<string, EnvError>)
    ensures r.Ok? <==> cluster in scribeMap
    ensures r.Ok? ==> r.value == scribeMap[cluster]
    ensures r.Err? ==> r.error == UnknownCluster(cluster)
  {
    if cluster in scribeMap then Ok(scribeMap[cluster]) else Err(UnknownCluster(cluster))
  }

  /**
   * The environment of one component. LOG_COMPONENTS[component] is looked up
   * first; the cluster's environment is then computed as the default of `.get`
   * whether or not the component has a source_env.
   */
  function ComponentEnv(logComponents: LogComponents, scribeMap: map<string, string>, component: string, cluster: string)
    : Result<string, EnvError>
  {
    if component !in logComponents then Err(UnknownComponent(component))
    else match ClusterToScribeEnv(scribeMap, cluster)
      case Err(e) => Err(e)
      case Ok(clusterEnv) => Ok(logComponents[component].sourceEnv.GetOr(clusterEnv))
  }

  /** The environments of the components in order, or the first failure. */
  function ComponentEnvs(logComponents: LogComponents, scribeMap: map<string, string>, components: seq<string>, cluster: string)
    : Result<seq<string>, EnvError>
    decreases |components|
  {
    if components == [] then Ok([])
    else match ComponentEnvs(logComponents, scribeMap, components[..|components| - 1], cluster)
      case Err(e) => Err(e)
      case Ok(envs) =>
        match ComponentEnv(logComponents, scribeMap, components[|components| - 1], cluster)
        case Err(e) => Err(e)
        case Ok(env) => Ok(envs + [env])
  }

  /** determine_scribereader_envs as a value: the set of the components' environments. */
  function ScribereaderEnvs(logComponents: LogComponents, scribeMap: map<string, string>, components: seq<string>, cluster: string)
    : Result<set<string>, EnvError>
  {
    match ComponentEnvs(logComponents, scribeMap, components, cluster)
    case Err(e) => Err(e)
    case Ok(envs) => Ok(set e | e in envs)
  }

  /** determine_scribereader_envs */
  method DetermineScribereaderEnvs(logComponents: LogComponents, scribeMap: map<string, string>,
                                   components: seq<string>, cluster: string)
    returns (r: Result<set<string>, EnvError>)
    ensures r == ScribereaderEnvs(logComponents, scribeMap, components, cluster)
  {
    var envs: seq<string> := [];
    for i := 0 to |components|
      invariant ComponentEnvs(logComponents, scribeMap, components[..i], cluster) == Ok(envs)
    {
      assert components[..i + 1][..i] == components[..i];
      var component := components[i];
      if component !in logComponents {
        ComponentEnvsStopsAtFailure(logComponents, scribeMap, components, cluster, i + 1);
        return Err(UnknownComponent(component));
      }
      var clusterEnv := ClusterToScribeEnv(scribeMap, cluster);
      if clusterEnv.Err? {
        ComponentEnvsStopsAtFailure(logComponents, scribeMap, components, cluster, i + 1);
        return Err(clusterEnv.error);
      }
      var env := logComponents[component].sourceEnv.GetOr(clusterEnv.value);
      envs := envs + [env];
    }
    assert components[..|components|] == components;
    r := Ok(set e | e in envs);
  }

  /** Once a prefix of the components fails, so does the whole list, with the same error. */
  lemma {:induction false} ComponentEnvsStopsAtFailure(logComponents: LogComponents, scribeMap: map<string, string>,
                                                       components: seq<string>, cluster: string, n: nat)
    requires n <= |components|
    requires ComponentEnvs(logComponents, scribeMap, components[..n], cluster).Err?
    ensures ComponentEnvs(logComponents, scribeMap, components, cluster) == ComponentEnvs(logComponents, scribeMap, components[..n], cluster)
    decreases |components| - n
  {
    if n < |components| {
      assert components[..n + 1][..n] == components[..n];
      ComponentEnvsStopsAtFailure(logComponents, scribeMap, components, cluster, n + 1);
    } else {
      assert components[..n] == components;
    }
  }

  /**
   * The environments succeed exactly when every component is known and, unless
   * there are no components at all, the cluster is in the scribe map; they are
   * then each component's source_env, falling back to the cluster's environment.
   */
  lemma {:induction false} ComponentEnvsMeaning(logComponents: LogComponents, scribeMap: map<string, string>,
                                                components: seq<string>, cluster: string)
    ensures var r := ComponentEnvs(logComponents, scribeMap, components, cluster);
      && (r.Ok? <==> (forall c :: c in components ==> c in logComponents) && (components == [] || cluster in scribeMap))
      && (r.Ok? ==>
            && |r.value| == |components|
            && forall i :: 0 <= i < |components| ==>
                 r.value[i] == logComponents[components[i]].sourceEnv.GetOr(scribeMap[cluster]))
    decreases |components|
  {
    if components != [] {
      var init, last := components[..|components| - 1], components[|components| - 1];
      ComponentEnvsMeaning(logComponents, scribeMap, init, cluster);
      assert forall c :: c in components <==> c in init || c == last by {
        assert components == init + [last];
      }
    }
  }

  /** The set determine_scribereader_envs returns holds exactly the components' environments. */
  lemma ScribereaderEnvsMeaning(logComponents: LogComponents, scribeMap: map<string, string>,
                                components: seq<string>, cluster: string)
    ensures var r := ScribereaderEnvs(logComponents, scribeMap, components, cluster);
      && (r.Ok? <==> (forall c :: c in components ==> c in logComponents) && (components == [] || cluster in scribeMap))
      && (r.Ok? ==> forall e :: e in r.value <==>
            exists c :: c in components && e == logComponents[c].sourceEnv.GetOr(scribeMap[cluster]))
  {
    ComponentEnvsMeaning(logComponents, scribeMap, components, cluster);
    var r := ComponentEnvs(logComponents, scribeMap, components, cluster);
    if r.Ok? {
      forall e ensures e in r.value <==> exists c :: c in components && e == logComponents[c].sourceEnv.GetOr(scribeMap[cluster]) {
        if e in r.value {
          var i :| 0 <= i < |r.value| && r.value[i] == e;
          assert components[i] in components;
        }
        if exists c :: c in components && e == logComponents[c].sourceEnv.GetOr(scribeMap[cluster]) {
          var c :| c in components && e == logComponents[c].sourceEnv.GetOr(scribeMap[cluster]);
          var i :| 0 <= i < |components| && components[i] == c;
          assert r.value[i] == e;
        }
      }
    }
  }

  /**
   * The cluster's environment is computed even when it is not needed: with an
   * unmapped cluster the lookup fails although every component has its own
   * source_env.
   */
  lemma UnmappedClusterAlwaysFails(logComponents: LogComponents, scribeMap: map<string, string>,
                                   components: seq<string>, cluster: string)
    requires components != [] && cluster !in scribeMap
    requires forall c :: c in components ==> c in logComponents && logComponents[c].sourceEnv.Some?
    ensures ScribereaderEnvs(logComponents, scribeMap, components, cluster) == Err(UnknownCluster(cluster))
  {
    var n := |components|;
    assert components[..1][..0] == [];
    ComponentEnvsStopsAtFailure(logComponents, scribeMap, components, cluster, 1);
  }

  // ---------------------------------------------------------------------------
  // paasta logs' defaults
  // ---------------------------------------------------------------------------

  /** What `paasta logs` tails: which clusters, components and levels. */
  datatype LogsQuery = LogsQuery(clusters: seq<string>, components: seq<string>, levels: seq<string>)

  /**
   * paasta_logs: explicit clusters and components are comma-separated lists;
   * otherwise the clusters are those the service is deployed to
   * (`deployedClusters`, from list_clusters) and the components the defaults;
   * debug mode adds the debug level to the event level.
   */
  function LogsDefaults(clustersArg: Option<string>, componentsArg: Option<string>, debug: bool,
                        deployedClusters: seq<string>): LogsQuery {
    LogsQuery(
      if clustersArg.None? then deployedClusters else Split(clustersArg.value, ','),
      if componentsArg.Some? then Split(componentsArg.value, ',') else DefaultComponents,
      if debug then [DefaultLogLevel, "debug"] else [DefaultLogLevel])
  }

  /**
   * An explicit list round-trips: the parsed clusters or components are
   * comma-free names, at least one, and joining them with commas gives back
   * the argument (which, by SplitJoin, pins them down).
   */
  lemma LogsDefaultsRoundTrip(clustersArg: Option<string>, componentsArg: Option<string>, debug: bool,
                              deployedClusters: seq<string>)
    ensures var q := LogsDefaults(clustersArg, componentsArg, debug, deployedClusters);
      && (clustersArg.Some? ==>
            && |q.clusters| >= 1
            && (forall i :: 0 <= i < |q.clusters| ==> ',' !in q.clusters[i])
            && Join(q.clusters, ",") == clustersArg.value)
      && (componentsArg.Some? ==>
            && |q.components| >= 1
            && (forall i :: 0 <= i < |q.components| ==> ',' !in q.components[i])
            && Join(q.components, ",") == componentsArg.value)
      && (clustersArg.None? ==> q.clusters == deployedClusters)
      && (componentsArg.None? ==> q.components == DefaultComponents)
  {
    if clustersArg.Some? {
      JoinSplit(clustersArg.value, ',');
    }
    if componentsArg.Some? {
      JoinSplit(componentsArg.value, ',');
    }
  }

  /** Outside debug mode one level is displayed, so no line shows its level; in debug mode each one does. */
  lemma LevelShownOnlyInDebug(clustersArg: Option<string>, componentsArg: Option<string>, debug: bool,
                              deployedClusters: seq<string>, palette: Palette, level: string)
    ensures var q := LogsDefaults(clustersArg, componentsArg, debug, deployedClusters);
      && (!debug ==> PrettifyLevel(palette, level, q.levels) == "")
      && (debug ==>
            PrettifyLevel(palette, level, q.levels) ==
            if level == DefaultLogLevel then palette.bold("[event]") else palette.grey("[" + level + "]"))
  {
  }

  /** Outside debug mode a debug line is never shown by the PaaSTA filter. */
  lemma DebugLinesHiddenOutsideDebug(parse: string -> Option<Record>, line: string, service: string,
                                     clustersArg: Option<string>, componentsArg: Option<string>,
                                     deployedClusters: seq<string>)
    requires parse(line).Some? && Get(parse(line).value, "level") == Some("debug")
    ensures var q := LogsDefaults(clustersArg, componentsArg, false, deployedClusters);
      !PaastaLogLinePassesFilter(parse, line, q.levels, service, q.components, q.clusters)
  {
  }
}

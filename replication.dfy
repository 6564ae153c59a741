/**
 * The Marathon replication check: for every `service.namespace` that
 * SmartStack knows, compare the number of backends Synapse reports as
 * available with the number of instances the Marathon configuration expects,
 * and send one Sensu event per namespace graded OK, WARNING or CRITICAL.
 *
 * The configuration store (marathon_tools), the monitoring lookups
 * (monitoring_tools) and the Sensu transport are outside the model: the first
 * two are functions that may fail, the last is an append-only event log.
 */
module Replication {
  import opened Wrappers
  import opened Strings

  // ---------------------------------------------------------------------------
  // Namespace ids
  // ---------------------------------------------------------------------------

  /** The separator between a service name and a namespace (marathon_tools.ID_SPACER). */
  const IdSpacer: char := '.'

  /**
   * split_id: the first two pieces of `fid` split on the spacer. None where
   * Python raises IndexError, which is exactly when there is no spacer; any
   * pieces after the second are ignored.
   */
  function SplitId(fid: string): (r: Option<(string, string)>)
    ensures r.None? <==> IdSpacer !in fid
  {
    var parts := Split(fid, IdSpacer);
    if |parts| < 2 then None else Some((parts[0], parts[1]))
  }

  /** The id of a namespace, as SmartStack spells it. */
  function FullName(service: string, namespace: string): string {
    service + [IdSpacer] + namespace
  }

  /** Splitting the id of a service and namespace that are free of the spacer gives them back. */
  lemma SplitIdRoundTrip(service: string, namespace: string)
    requires IdSpacer !in service && IdSpacer !in namespace
    ensures SplitId(FullName(service, namespace)) == Some((service, namespace))
  {
    SplitAfterPiece(service, namespace, IdSpacer);
    SplitWithoutSeparator(namespace, IdSpacer);
  }

  /**
   * Whatever id split_id accepts, the pair it returns is free of the spacer and
   * spells a prefix of the id that is the whole id or ends just before the
   * next spacer: "a.b.c" is read as service "a", namespace "b".
   */
  lemma SplitIdPrefix(fid: string)
    requires SplitId(fid).Some?
    ensures var (service, namespace) := SplitId(fid).value;
      && IdSpacer !in service && IdSpacer !in namespace
      && (FullName(service, namespace) == fid || FullName(service, namespace) + [IdSpacer] <= fid)
  {
    var parts := Split(fid, IdSpacer);
    JoinSplit(fid, IdSpacer);
    if |parts| > 2 {
      assert parts[1..][1..] == parts[2..];
      assert Join(parts[1..], [IdSpacer]) == parts[1] + [IdSpacer] + Join(parts[2..], [IdSpacer]);
      assert fid == FullName(parts[0], parts[1]) + [IdSpacer] + Join(parts[2..], [IdSpacer]);
    } else {
      assert Join(parts[1..], [IdSpacer]) == parts[1];
    }
  }

  // ---------------------------------------------------------------------------
  // The configuration store and the expected instance count
  // ---------------------------------------------------------------------------

  /**
   * What the check reads from one Marathon instance config: `nerve_ns` when
   * the config has one, and the instance count that marathon_tools.get_instances
   * returns for it (None when that raises one of the errors the check catches).
   */
  datatype InstanceConfig = InstanceConfig(nerveNs: Option<string>, instances: Option<nat>)

  /**
   * marathon_tools as the check uses it. `instanceList(service)` stands for
   * get_service_instance_list, `readConfig(name, instance)` for
   * read_service_config; None stands for an IndexError, KeyError, OSError,
   * ValueError or AttributeError raised by the call.
   */
  datatype ConfigStore = ConfigStore(
    instanceList: string -> Option<seq<(string, string)>>,
    readConfig: (string, string) -> Option<InstanceConfig>)

  /** The namespace an instance registers in: its `nerve_ns`, else the instance name. */
  function EffectiveNamespace(instance: string, config: InstanceConfig): string {
    config.nerveNs.GetOr(instance)
  }

  /** Whether reading instance `entry` fails, given the namespace being counted. */
  predicate EntryFails(store: ConfigStore, entry: (string, string), namespace: string) {
    var config := store.readConfig(entry.0, entry.1);
    config.None? ||
    (EffectiveNamespace(entry.1, config.value) == namespace && config.value.instances.None?)
  }

  /** What one instance contributes to the count for `namespace`, or None where reading it fails. */
  function EntryCount(store: ConfigStore, entry: (string, string), namespace: string): (r: Option<nat>)
    ensures r.None? <==> EntryFails(store, entry, namespace)
  {
    match store.readConfig(entry.0, entry.1)
    case None => None
    case Some(config) =>
      if EffectiveNamespace(entry.1, config) == namespace then config.instances else Some(0)
  }

  /** Adding two partial counts: a failure on either side is a failure of the whole. */
  function AddCounts(a: Option<nat>, b: Option<nat>): Option<nat> {
    if a.Some? && b.Some? then Some(a.value + b.value) else None
  }

  /** The expected count over a list of instances, in list order. */
  function CountOver(store: ConfigStore, entries: seq<(string, string)>, namespace: string): Option<nat>
    decreases |entries|
  {
    if entries == [] then Some(0)
    else AddCounts(EntryCount(store, entries[0], namespace), CountOver(store, entries[1..], namespace))
  }

  /** get_expected_instances, as a value: None where the source raises. */
  function ExpectedInstances(store: ConfigStore, service: string, namespace: string): Option<nat> {
    match store.instanceList(service)
    case None => None
    case Some(entries) => CountOver(store, entries, namespace)
  }

  /**
   * get_expected_instances: walks the service's instances, reading each one's
   * config, and adds up the instance counts of those registered in `namespace`.
   */
  method GetExpectedInstances(store: ConfigStore, service: string, namespace: string)
    returns (total: Option<nat>)
    ensures total == ExpectedInstances(store, service, namespace)
  {
    var listed := store.instanceList(service);
    if listed.None? {
      return None;
    }
    var entries := listed.value;
    var totalExpected: nat := 0;
    var i := 0;
    while i < |entries|
      invariant 0 <= i <= |entries|
      invariant CountOver(store, entries, namespace)
        == AddCounts(Some(totalExpected), CountOver(store, entries[i..], namespace))
    {
      assert entries[i..][1..] == entries[i + 1..];
      var name, instance := entries[i].0, entries[i].1;
      var config := store.readConfig(name, instance);
      if config.None? {
        return None;
      }
      var instanceNs := if config.value.nerveNs.Some? then config.value.nerveNs.value else instance;
      if namespace == instanceNs {
        var count := config.value.instances;
        if count.None? {
          return None;
        }
        totalExpected := totalExpected + count.value;
      }
      i := i + 1;
    }
    assert entries[i..] == [];
    total := Some(totalExpected);
  }

  /** The count fails exactly when reading some instance fails, wherever it is in the list. */
  lemma {:induction false} CountOverFails(store: ConfigStore, entries: seq<(string, string)>, namespace: string)
    ensures CountOver(store, entries, namespace).None?
        <==> exists i :: 0 <= i < |entries| && EntryFails(store, entries[i], namespace)
    decreases |entries|
  {
    if entries != [] {
      CountOverFails(store, entries[1..], namespace);
      if exists i :: 0 <= i < |entries| && EntryFails(store, entries[i], namespace) {
        var i :| 0 <= i < |entries| && EntryFails(store, entries[i], namespace);
        if i > 0 {
          assert EntryFails(store, entries[1..][i - 1], namespace);
        }
      }
    }
  }

  /** An instance registered elsewhere contributes nothing; so with no match the count is 0. */
  lemma {:induction false} CountOverNoMatch(store: ConfigStore, entries: seq<(string, string)>, namespace: string)
    requires forall i :: 0 <= i < |entries| ==>
      var config := store.readConfig(entries[i].0, entries[i].1);
      config.Some? && EffectiveNamespace(entries[i].1, config.value) != namespace
    ensures CountOver(store, entries, namespace) == Some(0)
    decreases |entries|
  {
    if entries != [] {
      CountOverNoMatch(store, entries[1..], namespace);
    }
  }

  /** Counting a concatenation adds up the counts of its parts. */
  lemma {:induction false} CountOverAppend(store: ConfigStore, a: seq<(string, string)>, b: seq<(string, string)>, namespace: string)
    ensures CountOver(store, a + b, namespace)
         == AddCounts(CountOver(store, a, namespace), CountOver(store, b, namespace))
    decreases |a|
  {
    if a != [] {
      assert (a + b)[1..] == a[1..] + b;
      CountOverAppend(store, a[1..], b, namespace);
    } else {
      assert a + b == b;
    }
  }

  /** Moving one instance to the front of the list leaves the count unchanged. */
  lemma CountOverMoveFront(store: ConfigStore, p: seq<(string, string)>, x: (string, string), q: seq<(string, string)>, namespace: string)
    ensures CountOver(store, p + [x] + q, namespace) == CountOver(store, [x] + (p + q), namespace)
  {
    CountOverAppend(store, p + [x], q, namespace);
    CountOverAppend(store, p, [x], namespace);
    CountOverAppend(store, p, q, namespace);
    CountOverAppend(store, [x], p + q, namespace);
  }

  /** Where the first element of `a` sits in its permutation `b`, and what is left of both. */
  lemma PermutationHead<T>(a: seq<T>, b: seq<T>) returns (k: nat)
    requires a != [] && multiset(a) == multiset(b)
    ensures k < |b| && b[k] == a[0]
    ensures multiset(a[1..]) == multiset(b[..k] + b[k + 1..])
  {
    assert a[0] in multiset(b);
    k :| 0 <= k < |b| && b[k] == a[0];
    assert a == [a[0]] + a[1..];
    assert b == b[..k] + [b[k]] + b[k + 1..];
    assert multiset(a) == multiset{a[0]} + multiset(a[1..]);
    assert multiset(b) == multiset(b[..k]) + multiset{b[k]} + multiset(b[k + 1..]);
    assert multiset(b[..k] + b[k + 1..]) == multiset(b[..k]) + multiset(b[k + 1..]);
    forall y ensures multiset(a[1..])[y] == multiset(b[..k] + b[k + 1..])[y] {
      assert multiset(a)[y] == multiset{a[0]}[y] + multiset(a[1..])[y];
    }
  }

  /** The expected count does not depend on the order in which instances are listed. */
  lemma {:induction false} CountOverPermutation(store: ConfigStore, a: seq<(string, string)>, b: seq<(string, string)>, namespace: string)
    requires multiset(a) == multiset(b)
    ensures CountOver(store, a, namespace) == CountOver(store, b, namespace)
    decreases |a|
  {
    if a == [] {
      assert |b| == |multiset(b)| == 0;
    } else {
      var k := PermutationHead(a, b);
      var x, rest := a[0], b[..k] + b[k + 1..];
      CountOverPermutation(store, a[1..], rest, namespace);
      calc {
        CountOver(store, b, namespace);
        { assert b == b[..k] + [x] + b[k + 1..];
          CountOverMoveFront(store, b[..k], x, b[k + 1..], namespace); }
        CountOver(store, [x] + rest, namespace);
        { assert ([x] + rest)[1..] == rest; }
        AddCounts(EntryCount(store, x, namespace), CountOver(store, rest, namespace));
        AddCounts(EntryCount(store, x, namespace), CountOver(store, a[1..], namespace));
        CountOver(store, a, namespace);
      }
    }
  }

  // ---------------------------------------------------------------------------
  // Grading
  // ---------------------------------------------------------------------------

  /** pysensu_yelp.Status, as far as the check uses it. */
  datatype Status = OK | Warning | Critical

  /** `available / expected * 100 <= pct`, decided in integers. */
  predicate RatioAtMost(available: nat, expected: nat, pct: int)
    requires expected > 0
  {
    available * 100 <= pct * expected
  }

  /** The grade for `available` out of `expected`, both thresholds inclusive. */
  function Classify(available: nat, expected: nat, warn: int, crit: int): Status
    requires expected > 0
  {
    if RatioAtMost(available, expected, crit) then Critical
    else if RatioAtMost(available, expected, warn) then Warning
    else OK
  }

  /** The percentage the source computes in floating point, as an exact real. */
  ghost function Ratio(available: nat, expected: nat): real
    requires expected > 0
  {
    (available as real / expected as real) * 100.0
  }

  /** The integer comparison decides the same question as comparing the real ratio. */
  lemma RatioAtMostIsExact(available: nat, expected: nat, pct: int)
    requires expected > 0
    ensures RatioAtMost(available, expected, pct) <==> Ratio(available, expected) <= pct as real
  {
    var e := expected as real;
    var q := available as real / e;
    assert q * e == available as real;
    assert Ratio(available, expected) * e == (available * 100) as real;
    if RatioAtMost(available, expected, pct) {
      assert Ratio(available, expected) * e <= (pct as real) * e;
    } else {
      assert Ratio(available, expected) * e > (pct as real) * e;
    }
  }

  /** The grade against the ratio: CRITICAL at or below `crit`, WARNING above it up to `warn`, else OK. */
  lemma ClassifyByRatio(available: nat, expected: nat, warn: int, crit: int)
    requires expected > 0
    ensures var r, s := Ratio(available, expected), Classify(available, expected, warn, crit);
      && (s == Critical <==> r <= crit as real)
      && (s == Warning <==> crit as real < r <= warn as real)
      && (s == OK <==> crit as real < r && warn as real < r)
  {
    RatioAtMostIsExact(available, expected, crit);
    RatioAtMostIsExact(available, expected, warn);
  }

  /** How bad a grade is. */
  function Severity(s: Status): nat {
    match s
    case OK => 0
    case Warning => 1
    case Critical => 2
  }

  /** More available backends never make the grade worse. */
  lemma ClassifyMonotone(a1: nat, a2: nat, expected: nat, warn: int, crit: int)
    requires expected > 0 && a1 <= a2
    ensures Severity(Classify(a2, expected, warn, crit)) <= Severity(Classify(a1, expected, warn, crit))
  {
    assert a1 * 100 <= a2 * 100;
  }

  /** A WARNING needs the critical threshold below the warning one. */
  lemma WarningNeedsCritBelowWarn(available: nat, expected: nat, warn: int, crit: int)
    requires expected > 0 && Classify(available, expected, warn, crit) == Warning
    ensures crit < warn
  {
  }

  /** The command line's default thresholds (`--warn 75`, `--critcal 90`). */
  const DefaultWarn: int := 75
  const DefaultCrit: int := 90

  /** With the default thresholds no namespace is ever graded WARNING. */
  lemma DefaultThresholdsNeverWarn(available: nat, expected: nat)
    requires expected > 0
    ensures Classify(available, expected, DefaultWarn, DefaultCrit) != Warning
  {
    if Classify(available, expected, DefaultWarn, DefaultCrit) == Warning {
      WarningNeedsCritBelowWarn(available, expected, DefaultWarn, DefaultCrit);
    }
  }

  /** The thresholds the check's own documentation gives: WARNING below 75%, CRITICAL below 50%. */
  const DocumentedWarn: int := 75
  const DocumentedCrit: int := 50

  /**
   * With the documented thresholds all three grades occur: WARNING exactly for
   * a ratio above 50% and at most 75%.
   */
  lemma DocumentedThresholdsWarn(available: nat, expected: nat)
    requires expected > 0
    ensures Classify(available, expected, DocumentedWarn, DocumentedCrit) == Warning
        <==> 50.0 < Ratio(available, expected) <= 75.0
    ensures Classify(3, 5, DocumentedWarn, DocumentedCrit) == Warning
    ensures Classify(1, 5, DocumentedWarn, DocumentedCrit) == Critical
    ensures Classify(4, 5, DocumentedWarn, DocumentedCrit) == OK
  {
    ClassifyByRatio(available, expected, DocumentedWarn, DocumentedCrit);
  }

  // ---------------------------------------------------------------------------
  // Event text
  // ---------------------------------------------------------------------------

  /** The output for a namespace SmartStack has no entry for. */
  function NotFoundOutput(fullName: string): string {
    "Service namespace entry " + fullName + " not found! No instances available!"
  }

  /**
   * The output for a graded namespace. The source's string literal continues
   * over a backslash-newline, so the indentation of its second line (18 spaces)
   * is part of the text.
   */
  function RatioOutput(fullName: string, available: nat, expected: nat, warn: int, crit: int): string {
    "Service namespace " + fullName + " has " + IntToString(available) + "/" + IntToString(expected)
    + " instances available," + seq(18, _ => ' ')
    + "thresholds are WARN @ " + IntToString(warn) + ", CRITICAL @ " + IntToString(crit)
  }

  // ---------------------------------------------------------------------------
  // Per-namespace decision
  // ---------------------------------------------------------------------------

  /** What check_namespaces does with one namespace, before the team lookup. */
  datatype Decision =
    | NotManaged   // the id does not split or the service's configs could not be read
    | NotInScope   // no instance of this cluster registers in the namespace
    | Report(service: string, namespace: string, status: Status, output: string)

  /** The body of check_namespaces' loop for one namespace id, up to send_event. */
  function Decide(fullName: string, availableBackends: map<string, nat>, store: ConfigStore, crit: int, warn: int): Decision {
    match SplitId(fullName)
    case None => NotManaged
    case Some((service, namespace)) =>
      match ExpectedInstances(store, service, namespace)
      case None => NotManaged
      case Some(expected) =>
        if expected == 0 then NotInScope
        else if fullName !in availableBackends then
          Report(service, namespace, Critical, NotFoundOutput(fullName))
        else
          var available := availableBackends[fullName];
          Report(service, namespace, Classify(available, expected, warn, crit),
                 RatioOutput(fullName, available, expected, warn, crit))
  }

  /**
   * How a namespace ends: skipped when its id or configs are unusable or
   * nothing is expected; CRITICAL "not found" when something is expected but
   * SmartStack has no entry, whatever the thresholds; otherwise graded by the ratio.
   */
  lemma DecideCases(fullName: string, availableBackends: map<string, nat>, store: ConfigStore, crit: int, warn: int)
    ensures var d := Decide(fullName, availableBackends, store, crit, warn);
      && (IdSpacer !in fullName ==> d == NotManaged)
      && (SplitId(fullName).Some? ==>
            var (service, namespace) := SplitId(fullName).value;
            var expected := ExpectedInstances(store, service, namespace);
            && (expected.None? ==> d == NotManaged)
            && (expected == Some(0) ==> d == NotInScope)
            && (expected.Some? && expected.value > 0 && fullName !in availableBackends ==>
                  d == Report(service, namespace, Critical, NotFoundOutput(fullName)))
            && (expected.Some? && expected.value > 0 && fullName in availableBackends ==>
                  d.Report? && d.service == service && d.namespace == namespace &&
                  (d.status == Critical <==> Ratio(availableBackends[fullName], expected.value) <= crit as real) &&
                  (d.status == Warning <==> crit as real < Ratio(availableBackends[fullName], expected.value) <= warn as real) &&
                  d.output == RatioOutput(fullName, availableBackends[fullName], expected.value, warn, crit)))
  {
    if SplitId(fullName).Some? {
      var (service, namespace) := SplitId(fullName).value;
      var expected := ExpectedInstances(store, service, namespace);
      if expected.Some? && expected.value > 0 && fullName in availableBackends {
        ClassifyByRatio(availableBackends[fullName], expected.value, warn, crit);
      }
    }
  }

  // ---------------------------------------------------------------------------
  // Sensu events
  // ---------------------------------------------------------------------------

  /** The framework name the monitoring lookups are keyed by. */
  const Framework: string := "marathon"

  /** The prefix of every check name this check sends. */
  const CheckNamePrefix: string := "check_marathon_services_replication."

  /**
   * monitoring_tools' per-service lookups, each taking the framework and the
   * service name. A team of None or "" means the service is not monitored.
   */
  datatype Monitoring = Monitoring(
    team: (string, string) -> Option<string>,
    runbook: (string, string) -> Option<string>,
    tip: (string, string) -> Option<string>,
    notificationEmail: (string, string) -> Option<string>,
    page: (string, string) -> bool)

  /** One call of pysensu_yelp.send_event. */
  datatype Event = Event(
    checkName: string, runbook: Option<string>, status: Status, output: string, team: string,
    tip: Option<string>, notificationEmail: Option<string>, page: bool,
    alertAfter: string, checkEvery: string, realertEvery: int)

  /** Python truthiness of the team lookup. */
  predicate HasTeam(team: Option<string>) {
    team.Some? && team.value != ""
  }

  /** The event send_event sends for a service whose team is `team`. */
  function MakeEvent(mon: Monitoring, service: string, namespace: string, status: Status, output: string, team: string): Event {
    Event(CheckNamePrefix + FullName(service, namespace), mon.runbook(Framework, service), status, output, team,
          mon.tip(Framework, service), mon.notificationEmail(Framework, service), mon.page(Framework, service),
          "2m", "1m", -1)
  }

  /** send_event as a value: the event it sends, or None when the service has no team. */
  function AlertEvent(mon: Monitoring, service: string, namespace: string, status: Status, output: string): Option<Event> {
    var team := mon.team(Framework, service);
    if HasTeam(team) then Some(MakeEvent(mon, service, namespace, status, output, team.value)) else None
  }

  /** The events an optional event amounts to. */
  function Sent(e: Option<Event>): seq<Event> {
    if e.Some? then [e.value] else []
  }

  /**
   * The event for a namespace carries its check name, which names the
   * namespace's id, and the service's monitoring data; a service with no team
   * gets no event whatever the status.
   */
  lemma AlertEventProperties(mon: Monitoring, service: string, namespace: string, status: Status, output: string)
    ensures var e := AlertEvent(mon, service, namespace, status, output);
      && (e.None? <==> !HasTeam(mon.team(Framework, service)))
      && (e.Some? ==>
            && e.value.team == mon.team(Framework, service).value && e.value.team != ""
            && e.value.checkName == CheckNamePrefix + FullName(service, namespace)
            && e.value.status == status && e.value.output == output
            && e.value.alertAfter == "2m" && e.value.checkEvery == "1m" && e.value.realertEvery == -1)
  {
  }

  /** Two well-formed namespaces never share a check name. */
  lemma CheckNamesDistinct(s1: string, n1: string, s2: string, n2: string)
    requires IdSpacer !in s1 && IdSpacer !in n1 && IdSpacer !in s2 && IdSpacer !in n2
    requires (s1, n1) != (s2, n2)
    ensures CheckNamePrefix + FullName(s1, n1) != CheckNamePrefix + FullName(s2, n2)
  {
    SplitIdRoundTrip(s1, n1);
    SplitIdRoundTrip(s2, n2);
    assert (CheckNamePrefix + FullName(s1, n1))[|CheckNamePrefix|..] == FullName(s1, n1);
    assert (CheckNamePrefix + FullName(s2, n2))[|CheckNamePrefix|..] == FullName(s2, n2);
  }

  // ---------------------------------------------------------------------------
  // The whole run
  // ---------------------------------------------------------------------------

  /** The events the check sends for one namespace id: at most one. */
  function AlertsFor(fullName: string, availableBackends: map<string, nat>, store: ConfigStore, mon: Monitoring, crit: int, warn: int): seq<Event> {
    match Decide(fullName, availableBackends, store, crit, warn)
    case Report(service, namespace, status, output) => Sent(AlertEvent(mon, service, namespace, status, output))
    case _ => []
  }

  /** The events check_namespaces sends, in the order of `names`. */
  function Alerts(names: seq<string>, availableBackends: map<string, nat>, store: ConfigStore, mon: Monitoring, crit: int, warn: int): seq<Event>
    decreases |names|
  {
    if names == [] then []
    else Alerts(names[..|names| - 1], availableBackends, store, mon, crit, warn)
         + AlertsFor(names[|names| - 1], availableBackends, store, mon, crit, warn)
  }

  /** Namespaces are handled one after another, independently: the events of a concatenation are concatenated. */
  lemma {:induction false} AlertsAppend(a: seq<string>, b: seq<string>, availableBackends: map<string, nat>, store: ConfigStore, mon: Monitoring, crit: int, warn: int)
    ensures Alerts(a + b, availableBackends, store, mon, crit, warn)
         == Alerts(a, availableBackends, store, mon, crit, warn) + Alerts(b, availableBackends, store, mon, crit, warn)
    decreases |b|
  {
    if b == [] {
      assert a + b == a;
    } else {
      var b' := b[..|b| - 1];
      assert (a + b)[..|a + b| - 1] == a + b';
      AlertsAppend(a, b', availableBackends, store, mon, crit, warn);
    }
  }

  /**
   * A namespace that is sent an event is sent exactly one: the check sends one
   * event per namespace that reaches a grade and whose service has a team, and
   * none for any other.
   */
  lemma AlertsForOne(fullName: string, availableBackends: map<string, nat>, store: ConfigStore, mon: Monitoring, crit: int, warn: int)
    ensures var d := Decide(fullName, availableBackends, store, crit, warn);
      |AlertsFor(fullName, availableBackends, store, mon, crit, warn)|
        == (if d.Report? && HasTeam(mon.team(Framework, d.service)) then 1 else 0)
  {
  }

  /** No run sends more events than it has namespaces, and every event goes to a team. */
  lemma {:induction false} AlertsBounded(names: seq<string>, availableBackends: map<string, nat>, store: ConfigStore, mon: Monitoring, crit: int, warn: int)
    ensures var events := Alerts(names, availableBackends, store, mon, crit, warn);
      |events| <= |names| && forall i :: 0 <= i < |events| ==> events[i].team != ""
    decreases |names|
  {
    if names != [] {
      AlertsBounded(names[..|names| - 1], availableBackends, store, mon, crit, warn);
      var last := names[|names| - 1];
      AlertsForOne(last, availableBackends, store, mon, crit, warn);
      var d := Decide(last, availableBackends, store, crit, warn);
      if d.Report? {
        AlertEventProperties(mon, d.service, d.namespace, d.status, d.output);
      }
    }
  }

  /** A namespace that is skipped leaves the events of all the others as they were. */
  lemma SkippedNamespaceIsolated(a: seq<string>, bad: string, b: seq<string>, availableBackends: map<string, nat>, store: ConfigStore, mon: Monitoring, crit: int, warn: int)
    requires !Decide(bad, availableBackends, store, crit, warn).Report?
    ensures Alerts(a + [bad] + b, availableBackends, store, mon, crit, warn)
         == Alerts(a + b, availableBackends, store, mon, crit, warn)
  {
    AlertsAppend(a + [bad], b, availableBackends, store, mon, crit, warn);
    AlertsAppend(a, [bad], availableBackends, store, mon, crit, warn);
    AlertsAppend(a, b, availableBackends, store, mon, crit, warn);
    AlertsSingle(bad, availableBackends, store, mon, crit, warn);
  }

  lemma AlertsSingle(fullName: string, availableBackends: map<string, nat>, store: ConfigStore, mon: Monitoring, crit: int, warn: int)
    ensures Alerts([fullName], availableBackends, store, mon, crit, warn)
         == AlertsFor(fullName, availableBackends, store, mon, crit, warn)
  {
    assert [fullName][..0] == [];
  }

  /** The events of one more namespace id follow those of the ids before it. */
  lemma AlertsSnoc(names: seq<string>, i: nat, availableBackends: map<string, nat>, store: ConfigStore, mon: Monitoring, crit: int, warn: int)
    requires i < |names|
    ensures Alerts(names[..i + 1], availableBackends, store, mon, crit, warn)
         == Alerts(names[..i], availableBackends, store, mon, crit, warn) + AlertsFor(names[i], availableBackends, store, mon, crit, warn)
  {
    assert names[..i + 1][..i] == names[..i];
    assert names[..i + 1][i] == names[i];
  }

  /** The Sensu transport: every event sent, in order. */
  class EventLog {
    var events: seq<Event>

    constructor ()
      ensures events == []
    {
      events := [];
    }

    /** pysensu_yelp.send_event */
    method Emit(e: Event)
      modifies this
      ensures events == old(events) + [e]
    {
      events := events + [e];
    }
  }

  /** send_event: look up the service's team and, when it has one, send the event. */
  method SendEvent(mon: Monitoring, service: string, namespace: string, status: Status, output: string, sink: EventLog)
    modifies sink
    ensures sink.events == old(sink.events) + Sent(AlertEvent(mon, service, namespace, status, output))
  {
    var team := mon.team(Framework, service);
    if !HasTeam(team) {
      return;
    }
    sink.Emit(MakeEvent(mon, service, namespace, status, output, team.value));
  }

  /**
   * One pass of check_namespaces' loop: skip the namespace when its id or
   * configs cannot be read or nothing is expected of it, send CRITICAL when
   * SmartStack has no entry for it, and otherwise send its grade.
   */
  method CheckNamespace(fullName: string, availableBackends: map<string, nat>, store: ConfigStore,
                        crit: int, warn: int, mon: Monitoring, sink: EventLog)
    modifies sink
    ensures sink.events == old(sink.events) + AlertsFor(fullName, availableBackends, store, mon, crit, warn)
  {
    var parts := SplitId(fullName);
    if parts.None? {
      return;  // not a Marathon service
    }
    var service, namespace := parts.value.0, parts.value.1;
    var numExpected := GetExpectedInstances(store, service, namespace);
    if numExpected.None? {
      return;  // not a Marathon service
    }
    if numExpected.value == 0 {
      return;  // not in this cluster
    }
    if fullName !in availableBackends {
      SendEvent(mon, service, namespace, Critical, NotFoundOutput(fullName), sink);
      return;
    }
    var numAvailable := availableBackends[fullName];
    var output := RatioOutput(fullName, numAvailable, numExpected.value, warn, crit);
    var status: Status;
    if numAvailable * 100 <= crit * numExpected.value {
      status := Critical;
    } else if numAvailable * 100 <= warn * numExpected.value {
      status := Warning;
    } else {
      status := OK;
    }
    SendEvent(mon, service, namespace, status, output, sink);
  }

  /** check_namespaces: every namespace id in turn, in list order. */
  method CheckNamespaces(allNamespaces: seq<string>, availableBackends: map<string, nat>, store: ConfigStore,
                         crit: int, warn: int, mon: Monitoring, sink: EventLog)
    modifies sink
    ensures sink.events == old(sink.events) + Alerts(allNamespaces, availableBackends, store, mon, crit, warn)
  {
    for i := 0 to |allNamespaces|
      invariant sink.events == old(sink.events) + Alerts(allNamespaces[..i], availableBackends, store, mon, crit, warn)
    {
      AlertsSnoc(allNamespaces, i, availableBackends, store, mon, crit, warn);
      CheckNamespace(allNamespaces[i], availableBackends, store, crit, warn, mon, sink);
    }
    assert allNamespaces[..|allNamespaces|] == allNamespaces;
  }
}

/**
 * The service wizard's suggestions: a VIP, a port and a SmartStack proxy port
 * for a new service, found by walking the yelpsoa-configs tree, and the hosts
 * it should run on, found from the per-habitat host histograms that the
 * service yamls collate to.
 *
 * The walk of the tree becomes a sequence of files (base name and contents),
 * yaml.load an uninterpreted function, and the collated service yamls an input
 * value. Python dicts become association lists in iteration order; the model
 * promises nothing that depends on that order except where the source fixes it.
 */
module Autosuggest {
  import opened Wrappers
  import opened Strings

  /** A file met in the walk of the configuration tree: its base name and its contents. */
  datatype File = File(name: string, content: string)

  /** The exceptions the suggestions can raise. */
  datatype SuggestError =
    | NoVip                          // NoVipError: no non-empty `vip` file
    | NoEligibleHost(habitat: string) // ValueError from min() over no eligible host

  // ---------------------------------------------------------------------------
  // suggest_vip
  // ---------------------------------------------------------------------------

  /** A directory's `vip` file that names a VIP (its stripped contents are not empty). */
  predicate IsVipFile(f: File) {
    f.name == "vip" && Strip(f.content) != ""
  }

  /** The VIP a file names: a `vip` file's stripped contents, when they are not empty. */
  function NamedVip(f: File): (r: Option<string>)
    ensures r.Some? <==> IsVipFile(f)
    ensures r.Some? ==> r.value == Strip(f.content)
  {
    if IsVipFile(f) then Some(Strip(f.content)) else None
  }

  /** The VIP each file names, in walk order. */
  function NamedVips(files: seq<File>): (r: seq<Option<string>>)
    ensures |r| == |files| && forall i :: 0 <= i < |files| ==> r[i] == NamedVip(files[i])
  {
    seq(|files|, i requires 0 <= i < |files| => NamedVip(files[i]))
  }

  /** How many entries name `vip`. */
  function Occurrences(names: seq<Option<string>>, vip: string): nat
    decreases |names|
  {
    if names == [] then 0
    else Occurrences(names[..|names| - 1], vip) + (if names[|names| - 1] == Some(vip) then 1 else 0)
  }

  /** A VIP occurs exactly when some entry names it. */
  lemma {:induction false} OccurrencesPositive(names: seq<Option<string>>, vip: string)
    ensures Occurrences(names, vip) > 0 <==> Some(vip) in names
    decreases |names|
  {
    if names != [] {
      var init := names[..|names| - 1];
      OccurrencesPositive(init, vip);
      assert names == init + [names[|names| - 1]];
    }
  }

  /** When no VIP occurs, no entry names one. */
  lemma NoOccurrences(names: seq<Option<string>>)
    requires forall v :: Occurrences(names, v) == 0
    ensures forall i :: 0 <= i < |names| ==> names[i].None?
  {
    forall i | 0 <= i < |names| ensures names[i].None? {
      if names[i].Some? {
        OccurrencesPositive(names, names[i].value);
      }
    }
  }

  /** How many `vip` files name `vip`. */
  function VipCount(files: seq<File>, vip: string): nat {
    Occurrences(NamedVips(files), vip)
  }

  /** A VIP is counted exactly when some `vip` file names it. */
  lemma VipCountPositive(files: seq<File>, vip: string)
    ensures VipCount(files, vip) > 0 <==>
      exists i :: 0 <= i < |files| && IsVipFile(files[i]) && Strip(files[i].content) == vip
  {
    var names := NamedVips(files);
    OccurrencesPositive(names, vip);
    if Some(vip) in names {
      var i :| 0 <= i < |names| && names[i] == Some(vip);
      assert IsVipFile(files[i]) && Strip(files[i].content) == vip;
    }
    if exists i :: 0 <= i < |files| && IsVipFile(files[i]) && Strip(files[i].content) == vip {
      var i :| 0 <= i < |files| && IsVipFile(files[i]) && Strip(files[i].content) == vip;
      assert names[i] == Some(vip);
    }
  }

  /**
   * suggest_vip: count how many directories name each VIP and return one that
   * is named least often; NoVip when no `vip` file names any. Which of several
   * equally rare VIPs is returned is not specified.
   */
  method SuggestVip(files: seq<File>) returns (r: Result<string, SuggestError>)
    ensures r.Err? <==> forall i :: 0 <= i < |files| ==> !IsVipFile(files[i])
    ensures r.Err? ==> r.error == NoVip
    ensures r.Ok? ==> VipCount(files, r.value) > 0
    ensures r.Ok? ==> forall v :: VipCount(files, v) > 0 ==> VipCount(files, r.value) <= VipCount(files, v)
  {
    var vipCounts := CountVips(files);
    if vipCounts == map[] {
      forall v ensures Occurrences(NamedVips(files), v) == 0 {
        assert v !in vipCounts;
      }
      NoOccurrences(NamedVips(files));
      return Err(NoVip);
    }
    var least := LeastCounted(vipCounts);
    VipCountPositive(files, least);
    r := Ok(least);
  }

  /** suggest_vip's walk: the number of `vip` files naming each VIP that some file names. */
  method CountVips(files: seq<File>) returns (vipCounts: map<string, nat>)
    ensures forall v :: v in vipCounts <==> VipCount(files, v) > 0
    ensures forall v :: v in vipCounts ==> vipCounts[v] == VipCount(files, v)
  {
    ghost var names := NamedVips(files);
    vipCounts := map[];
    for i := 0 to |files|
      invariant forall v :: v in vipCounts <==> Occurrences(names[..i], v) > 0
      invariant forall v :: v in vipCounts ==> vipCounts[v] == Occurrences(names[..i], v)
    {
      OccurrencesSnoc(names, i);
      var named := NamedVip(files[i]);
      if named.Some? {
        var vip := named.value;
        vipCounts := vipCounts[vip := (if vip in vipCounts then vipCounts[vip] else 0) + 1];
      }
    }
    assert names[..|files|] == names;
  }

  /** One more entry adds one to the count of the VIP it names, and nothing to the others. */
  lemma OccurrencesSnoc(names: seq<Option<string>>, i: nat)
    requires i < |names|
    ensures forall v :: Occurrences(names[..i + 1], v) == Occurrences(names[..i], v) + (if names[i] == Some(v) then 1 else 0)
  {
    assert names[..i + 1][..i] == names[..i];
    assert names[..i + 1][i] == names[i];
  }

  /** `min(counts.items(), key=itemgetter(1))[0]`: a key with the smallest count. */
  method LeastCounted(counts: map<string, nat>) returns (least: string)
    requires counts != map[]
    ensures least in counts
    ensures forall v :: v in counts ==> counts[least] <= counts[v]
  {
    assert counts.Keys != {};
    least :| least in counts;
    var rest := counts.Keys - {least};
    while rest != {}
      invariant least in counts && rest <= counts.Keys
      invariant forall v :: v in counts && v !in rest ==> counts[least] <= counts[v]
      decreases rest
    {
      var v :| v in rest;
      if counts[v] < counts[least] {
        least := v;
      }
      rest := rest - {v};
    }
  }

  // ---------------------------------------------------------------------------
  // suggest_port and suggest_smartstack_proxy_port
  // ---------------------------------------------------------------------------

  /**
   * What the two port suggestions promise, for the files that `selects` picks
   * and the port `portOf` reads from each (None where reading raises): they fail
   * exactly when some picked file cannot be read; otherwise they return one more
   * than the largest port strictly between `low` and `high`, or 1 when there is
   * none.
   */
  ghost predicate IsNextPort(r: Option<int>, files: seq<File>, selects: File -> bool, portOf: File -> Option<int>, low: int, high: int) {
    && (r.None? <==> exists i :: 0 <= i < |files| && selects(files[i]) && portOf(files[i]).None?)
    && (r.Some? ==>
          && (r.value == 1 || exists i :: 0 <= i < |files| && selects(files[i]) && portOf(files[i]) == Some(r.value - 1))
          && (r.value == 1 || low < r.value - 1 < high)
          && forall i :: 0 <= i < |files| && selects(files[i]) && portOf(files[i]).Some? && low < portOf(files[i]).value < high
               ==> portOf(files[i]).value < r.value)
  }

  /** The loop the two port suggestions share: the largest in-band port seen, plus one. */
  method NextPortInBand(files: seq<File>, selects: File -> bool, portOf: File -> Option<int>, low: int, high: int)
    returns (r: Option<int>)
    requires low >= 0
    ensures IsNextPort(r, files, selects, portOf, low, high)
  {
    var maxPort := 0;
    for i := 0 to |files|
      invariant forall j :: 0 <= j < i && selects(files[j]) ==> portOf(files[j]).Some?
      invariant maxPort == 0 || (low < maxPort < high && exists j :: 0 <= j < i && selects(files[j]) && portOf(files[j]) == Some(maxPort))
      invariant forall j :: 0 <= j < i && selects(files[j]) && low < portOf(files[j]).value < high ==> portOf(files[j]).value <= maxPort
    {
      if selects(files[i]) {
        var parsed := portOf(files[i]);
        if parsed.None? {
          return None;
        }
        var port := parsed.value;
        if !(low < port < high) {
          port := 0;
        }
        maxPort := if port > maxPort then port else maxPort;
      }
    }
    r := Some(maxPort + 1);
  }

  /** The files suggest_port reads: those whose name ends in "port". */
  predicate IsPortFile(f: File) {
    EndsWith(f.name, "port")
  }

  /** _get_port_from_file: the stripped contents as an integer, 0 when empty; None where int() raises. */
  function PortFromFile(f: File): Option<int> {
    var s := Strip(f.content);
    if s == "" then Some(0) else ParseInt(s)
  }

  /** suggest_port: the next port in the 13000-14000 block; None where a port file does not hold an integer. */
  method SuggestPort(files: seq<File>) returns (r: Option<int>)
    ensures IsNextPort(r, files, IsPortFile, PortFromFile, 13000, 14000)
  {
    r := NextPortInBand(files, IsPortFile, PortFromFile, 13000, 14000);
  }

  /** A value in a yaml document, as far as int() is concerned. */
  datatype YamlValue = YamlInt(i: int) | YamlBool(b: bool) | YamlFloat(x: real) | YamlStr(s: string) | YamlOther

  /** The `smartstack` stanza of a service.yaml. */
  datatype Stanza = Stanza(proxyPort: Option<YamlValue>) | NotAMapping

  /** What yaml.load makes of a service.yaml: a mapping with or without a `smartstack` key, or an error. */
  datatype ServiceYaml = ServiceYaml(smartstack: Option<Stanza>) | Unloadable

  /** int() of a yaml value; None where it raises. */
  function YamlToInt(v: YamlValue): Option<int> {
    match v
    case YamlInt(i) => Some(i)
    case YamlBool(b) => Some(if b then 1 else 0)
    case YamlFloat(x) => Some(TruncateTowardZero(x))
    case YamlStr(s) => ParseInt(s)
    case YamlOther => None
  }

  /** int() of a float drops the fraction, rounding toward zero. */
  function TruncateTowardZero(x: real): (r: int)
    ensures 0.0 <= x ==> r as real <= x < r as real + 1.0
    ensures x < 0.0 ==> r as real - 1.0 < x <= r as real
  {
    if x >= 0.0 then x.Floor else -((-x).Floor)
  }

  /**
   * _get_smartstack_proxy_port_from_file: `smartstack.proxy_port` as an
   * integer, 0 when either key is absent; None where loading or converting raises.
   */
  function ProxyPortOf(doc: ServiceYaml): Option<int> {
    match doc
    case Unloadable => None
    case ServiceYaml(None) => Some(0)
    case ServiceYaml(Some(NotAMapping)) => None
    case ServiceYaml(Some(Stanza(None))) => Some(0)
    case ServiceYaml(Some(Stanza(Some(v)))) => YamlToInt(v)
  }

  /** The files suggest_smartstack_proxy_port reads: those whose name ends in "service.yaml". */
  predicate IsServiceYaml(f: File) {
    EndsWith(f.name, "service.yaml")
  }

  /** suggest_smartstack_proxy_port: the next proxy port in the 20000-21000 block, reading each service.yaml with `load`. */
  method SuggestSmartstackProxyPort(files: seq<File>, load: string -> ServiceYaml) returns (r: Option<int>)
    ensures IsNextPort(r, files, IsServiceYaml, (f: File) => ProxyPortOf(load(f.content)), 20000, 21000)
  {
    r := NextPortInBand(files, IsServiceYaml, (f: File) => ProxyPortOf(load(f.content)), 20000, 21000);
  }

  // ---------------------------------------------------------------------------
  // Habitats
  // ---------------------------------------------------------------------------

  predicate IsStageHabitat(habitat: string) {
    StartsWith(habitat, "stage")
  }

  const ProdHabitats: seq<string> := ["sfo1", "iad1", "sfo2"]

  predicate IsProdHabitat(habitat: string) {
    habitat in ProdHabitats
  }

  predicate IsDevHabitat(habitat: string) {
    StartsWith(habitat, "dev")
  }

  /** A habitat is at most one of stage, prod and dev. */
  lemma HabitatKindsDisjoint(habitat: string)
    ensures !(IsStageHabitat(habitat) && IsProdHabitat(habitat))
    ensures !(IsStageHabitat(habitat) && IsDevHabitat(habitat))
    ensures !(IsProdHabitat(habitat) && IsDevHabitat(habitat))
  {
    if IsStageHabitat(habitat) {
      assert habitat[0] == 's' && habitat[1] == 't';
    }
    if IsDevHabitat(habitat) {
      assert habitat[0] == 'd';
    }
  }

  /** The keys of an association list, in order. */
  function Keys<V>(d: seq<(string, V)>): (r: seq<string>)
    ensures |r| == |d| && forall i :: 0 <= i < |d| ==> r[i] == d[i].0
  {
    seq(|d|, i requires 0 <= i < |d| => d[i].0)
  }

  /** `[k for k in keys if p(k)]` */
  function Filter(keys: seq<string>, p: string -> bool): (r: seq<string>)
    ensures forall x :: x in r <==> x in keys && p(x)
    ensures |r| <= |keys|
    decreases |keys|
  {
    if keys == [] then []
    else (if p(keys[0]) then [keys[0]] else []) + Filter(keys[1..], p)
  }

  /** Every key passing the condition is kept as often as it occurs, every other one is dropped. */
  lemma {:induction false} FilterCounts(keys: seq<string>, p: string -> bool)
    ensures forall x :: multiset(Filter(keys, p))[x] == if p(x) then multiset(keys)[x] else 0
    decreases |keys|
  {
    if keys != [] {
      assert keys == [keys[0]] + keys[1..];
      FilterCounts(keys[1..], p);
    }
  }

  /**
   * The comprehension keeps the order of its input: filtering a concatenation
   * filters each part and concatenates the results.
   */
  lemma {:induction false} FilterAppend(a: seq<string>, b: seq<string>, p: string -> bool)
    ensures Filter(a + b, p) == Filter(a, p) + Filter(b, p)
    decreases |a|
  {
    if a != [] {
      assert (a + b)[0] == a[0];
      assert (a + b)[1..] == a[1..] + b;
      FilterAppend(a[1..], b, p);
      assert Filter(a + b, p) == (if p(a[0]) then [a[0]] else []) + Filter(a[1..] + b, p);
    } else {
      assert a + b == b;
    }
  }


  /** The first value stored under `k`, as `d.get(k)`. */
  function Lookup<V>(d: seq<(string, V)>, k: string): (r: Option<V>)
    ensures r.None? <==> k !in Keys(d)
    ensures r.Some? ==> exists i :: FirstEntry(d, k, i) && d[i].1 == r.value
    decreases |d|
  {
    if d == [] then None
    else if d[0].0 == k then
      assert FirstEntry(d, k, 0);
      Some(d[0].1)
    else
      assert Keys(d) == [d[0].0] + Keys(d[1..]);
      var r := Lookup(d[1..], k);
      assert r.Some? ==> exists i :: FirstEntry(d, k, i) && d[i].1 == r.value by {
        if r.Some? {
          var i :| FirstEntry(d[1..], k, i) && d[1..][i].1 == r.value;
          assert FirstEntry(d, k, i + 1);
        }
      }
      r
  }

  /** Entry `i` of `d` is the first one stored under `k`. */
  predicate FirstEntry<V>(d: seq<(string, V)>, k: string, i: int) {
    0 <= i < |d| && d[i].0 == k && forall j :: 0 <= j < i ==> d[j].0 != k
  }

  /** How many services each host runs, as collated from the service yamls. */
  type Histogram = seq<(string, int)>

  /** The host histogram of each habitat. */
  type Collated = seq<(string, Histogram)>

  /**
   * discover_habitats: the stage habitats in use, then the three prod habitats
   * whether in use or not, then the dev habitats in use.
   */
  function DiscoverHabitats(collated: Collated): seq<string> {
    Filter(Keys(collated), IsStageHabitat) + ProdHabitats + Filter(Keys(collated), IsDevHabitat)
  }

  /** Which block of discover_habitats' list a habitat belongs in. */
  function HabitatBlock(habitat: string): nat {
    if IsStageHabitat(habitat) then 0 else if IsProdHabitat(habitat) then 1 else 2
  }

  /**
   * discover_habitats lists exactly the stage and dev habitats in use and every
   * prod habitat, stage ones first and dev ones last, the prod ones in their
   * fixed order.
   */
  lemma DiscoverHabitatsShape(collated: Collated)
    ensures var hs := DiscoverHabitats(collated);
      && (forall h :: h in hs <==>
            IsProdHabitat(h) || (h in Keys(collated) && (IsStageHabitat(h) || IsDevHabitat(h))))
      && (forall i, j :: 0 <= i < j < |hs| ==> HabitatBlock(hs[i]) <= HabitatBlock(hs[j]))
      && var k := |Filter(Keys(collated), IsStageHabitat)|; hs[k..k + 3] == ProdHabitats
  {
    var stages, devs := Filter(Keys(collated), IsStageHabitat), Filter(Keys(collated), IsDevHabitat);
    var hs := DiscoverHabitats(collated);
    forall h | h in devs ensures HabitatBlock(h) == 2 {
      HabitatKindsDisjoint(h);
    }
    forall i | 0 <= i < |hs| ensures HabitatBlock(hs[i]) == if i < |stages| then 0 else if i < |stages| + 3 then 1 else 2 {
      if i >= |stages| + 3 {
        assert hs[i] == devs[i - |stages| - 3];
      } else if i >= |stages| {
        assert hs[i] == ProdHabitats[i - |stages|];
        HabitatKindsDisjoint(hs[i]);
      } else {
        assert hs[i] == stages[i];
      }
    }
    assert hs[|stages|..|stages| + 3] == ProdHabitats;
  }

  /**
   * is_srv_machine: whether `host` may run services in `habitat`. Stage
   * habitats need `<habitat>services*` hosts, prod habitats `srv*`, dev
   * habitats `srv*` or `devservices*`; any host will do elsewhere.
   */
  function IsSrvMachine(host: string, habitat: string): (r: bool)
    ensures IsStageHabitat(habitat) ==> (r <==> StartsWith(host, habitat + "services"))
    ensures IsProdHabitat(habitat) ==> (r <==> StartsWith(host, "srv"))
    ensures IsDevHabitat(habitat) ==> (r <==> StartsWith(host, "srv") || StartsWith(host, "devservices"))
    ensures !IsStageHabitat(habitat) && !IsProdHabitat(habitat) && !IsDevHabitat(habitat) ==> r
  {
    HabitatKindsDisjoint(habitat);
    if IsStageHabitat(habitat) then StartsWith(host, habitat + "services")
    else if IsProdHabitat(habitat) then StartsWith(host, "srv")
    else if IsDevHabitat(habitat) then StartsWith(host, "srv") || StartsWith(host, "devservices")
    else true
  }

  /** The `srv*` hosts of a histogram. */
  function SrvHosts(histogram: Histogram): seq<string> {
    Filter(Keys(histogram), h => StartsWith(h, "srv"))
  }

  /** get_prod_srv_hosts: the `srv*` hosts, comma-separated. */
  function GetProdSrvHosts(histogram: Histogram): string {
    Join(SrvHosts(histogram), ",")
  }

  /**
   * The position of an eligible host with the fewest services (the first such,
   * as min() picks); None when no host is eligible.
   */
  function LeastUsedIndex(histogram: Histogram, habitat: string): (r: Option<nat>)
    ensures r.None? <==> forall i :: 0 <= i < |histogram| ==> !IsSrvMachine(histogram[i].0, habitat)
    ensures r.Some? ==> r.value < |histogram| && IsSrvMachine(histogram[r.value].0, habitat)
    ensures r.Some? ==> forall j :: 0 <= j < |histogram| && IsSrvMachine(histogram[j].0, habitat)
                          ==> histogram[r.value].1 <= histogram[j].1
    decreases |histogram|
  {
    if histogram == [] then None
    else
      var last := |histogram| - 1;
      var rest := LeastUsedIndex(histogram[..last], habitat);
      if !IsSrvMachine(histogram[last].0, habitat) then rest
      else if rest.None? || histogram[last].1 < histogram[rest.value].1 then Some(last)
      else rest
  }

  /** get_least_used_host: an eligible host that runs no more services than any other eligible host. */
  function GetLeastUsedHost(histogram: Histogram, habitat: string): (r: Result<string, SuggestError>)
    ensures r.Err? <==> forall i :: 0 <= i < |histogram| ==> !IsSrvMachine(histogram[i].0, habitat)
    ensures r.Err? ==> r.error == NoEligibleHost(habitat)
  {
    match LeastUsedIndex(histogram, habitat)
    case None => Err(NoEligibleHost(habitat))
    case Some(i) => Ok(histogram[i].0)
  }

  /** A habitat in use none of whose hosts may run services there. */
  predicate Starved(collated: Collated, habitat: string) {
    && habitat in Keys(collated)
    && var histogram := Lookup(collated, habitat).value;
       forall i :: 0 <= i < |histogram| ==> !IsSrvMachine(histogram[i].0, habitat)
  }

  /**
   * suggest_hosts_for_habitat: nothing for a habitat with no histogram, every
   * `srv*` host for a prod habitat, and the least used eligible host otherwise.
   */
  function SuggestHostsForHabitat(collated: Collated, habitat: string): (r: Result<string, SuggestError>)
    ensures habitat !in Keys(collated) ==> r == Ok("")
    ensures r.Err? <==> !IsProdHabitat(habitat) && Starved(collated, habitat)
    ensures r.Err? ==> r.error == NoEligibleHost(habitat)
  {
    match Lookup(collated, habitat)
    case None => Ok("")
    case Some(histogram) =>
      if IsProdHabitat(habitat) then Ok(GetProdSrvHosts(histogram))
      else GetLeastUsedHost(histogram, habitat)
  }

  /** The suggestion of a non-prod habitat is one of its hosts, eligible and least used. */
  lemma SuggestedHostIsLeastUsed(collated: Collated, habitat: string)
    requires habitat in Keys(collated) && !IsProdHabitat(habitat)
    requires SuggestHostsForHabitat(collated, habitat).Ok?
    ensures var histogram, host := Lookup(collated, habitat).value, SuggestHostsForHabitat(collated, habitat).value;
      && host in Keys(histogram) && IsSrvMachine(host, habitat)
      && exists i :: 0 <= i < |histogram| && histogram[i].0 == host &&
           forall j :: 0 <= j < |histogram| && IsSrvMachine(histogram[j].0, habitat) ==> histogram[i].1 <= histogram[j].1
  {
    var histogram := Lookup(collated, habitat).value;
    var i := LeastUsedIndex(histogram, habitat).value;
    assert Keys(histogram)[i] == histogram[i].0;
  }

  /** The suggestion of a prod habitat in use lists exactly its `srv*` hosts. */
  lemma ProdSuggestionIsSrvHosts(collated: Collated, habitat: string)
    requires habitat in Keys(collated) && IsProdHabitat(habitat)
    ensures SuggestHostsForHabitat(collated, habitat) == Ok(Join(SrvHosts(Lookup(collated, habitat).value), ","))
    ensures forall h :: h in SrvHosts(Lookup(collated, habitat).value) <==>
      h in Keys(Lookup(collated, habitat).value) && StartsWith(h, "srv")
  {
  }

  // ---------------------------------------------------------------------------
  // suggest_all_hosts and suggest_runs_on
  // ---------------------------------------------------------------------------

  /** The suggestion for each habitat in turn; the first failure, if any. */
  function SuggestEach(collated: Collated, habitats: seq<string>): Result<seq<string>, SuggestError>
    decreases |habitats|
  {
    if habitats == [] then Ok([])
    else match SuggestHostsForHabitat(collated, habitats[0])
      case Err(e) => Err(e)
      case Ok(s) => Prepend([s], SuggestEach(collated, habitats[1..]))
  }

  /** Each habitat gets its own suggestion, in order; the list fails exactly when some habitat's suggestion does. */
  lemma {:induction false} SuggestEachMeaning(collated: Collated, habitats: seq<string>)
    ensures var r := SuggestEach(collated, habitats);
      && (r.Err? <==> exists i :: 0 <= i < |habitats| && SuggestHostsForHabitat(collated, habitats[i]).Err?)
      && (r.Ok? ==>
            && |r.value| == |habitats|
            && forall i :: 0 <= i < |habitats| ==> SuggestHostsForHabitat(collated, habitats[i]) == Ok(r.value[i]))
    decreases |habitats|
  {
    if habitats != [] {
      SuggestEachMeaning(collated, habitats[1..]);
      if exists i :: 0 <= i < |habitats| && SuggestHostsForHabitat(collated, habitats[i]).Err? {
        var i :| 0 <= i < |habitats| && SuggestHostsForHabitat(collated, habitats[i]).Err?;
        if i > 0 {
          assert habitats[1..][i - 1] == habitats[i];
        }
      }
      var r := SuggestEach(collated, habitats);
      if r.Ok? {
        forall i | 0 <= i < |habitats| ensures SuggestHostsForHabitat(collated, habitats[i]) == Ok(r.value[i]) {
          if i > 0 {
            assert habitats[1..][i - 1] == habitats[i];
          }
        }
      }
    }
  }

  /** suggest_all_hosts as a value. */
  function AllHosts(collated: Collated): Result<string, SuggestError> {
    match SuggestEach(collated, DiscoverHabitats(collated))
    case Err(e) => Err(e)
    case Ok(suggested) => Ok(Join(suggested, ","))
  }

  /**
   * suggest_all_hosts fails exactly when some stage or dev habitat in use has
   * no eligible host; prod habitats never make it fail.
   */
  lemma AllHostsFails(collated: Collated)
    ensures AllHosts(collated).Err? <==>
      exists h :: (IsStageHabitat(h) || IsDevHabitat(h)) && Starved(collated, h)
  {
    var hs := DiscoverHabitats(collated);
    SuggestEachMeaning(collated, hs);
    if AllHosts(collated).Err? {
      var i :| 0 <= i < |hs| && SuggestHostsForHabitat(collated, hs[i]).Err?;
      DiscoverHabitatsMembers(collated, hs[i]);
    }
    if exists h :: (IsStageHabitat(h) || IsDevHabitat(h)) && Starved(collated, h) {
      var h :| (IsStageHabitat(h) || IsDevHabitat(h)) && Starved(collated, h);
      HabitatKindsDisjoint(h);
      DiscoverHabitatsMembers(collated, h);
      var i :| 0 <= i < |hs| && hs[i] == h;
      assert SuggestHostsForHabitat(collated, hs[i]).Err?;
    }
  }

  lemma DiscoverHabitatsMembers(collated: Collated, h: string)
    ensures h in DiscoverHabitats(collated) <==>
      IsProdHabitat(h) || (h in Keys(collated) && (IsStageHabitat(h) || IsDevHabitat(h)))
  {
  }

  /** suggest_all_hosts: the suggestion of every discovered habitat, comma-separated. */
  method SuggestAllHosts(collated: Collated) returns (r: Result<string, SuggestError>)
    ensures r == AllHosts(collated)
  {
    var suggested := SuggestHabitats(collated, DiscoverHabitats(collated));
    r := if suggested.Err? then Err(suggested.error) else Ok(Join(suggested.value, ","));
  }

  /** suggest_all_hosts' loop: the suggestion of each habitat in turn, stopping at the first failure. */
  method SuggestHabitats(collated: Collated, habitats: seq<string>) returns (r: Result<seq<string>, SuggestError>)
    ensures r == SuggestEach(collated, habitats)
  {
    var suggestedHosts: seq<string> := [];
    assert habitats[0..] == habitats;
    PrependNothing(SuggestEach(collated, habitats));
    for i := 0 to |habitats|
      invariant SuggestEach(collated, habitats) == Prepend(suggestedHosts, SuggestEach(collated, habitats[i..]))
    {
      assert habitats[i..][1..] == habitats[i + 1..];
      var s := SuggestHostsForHabitat(collated, habitats[i]);
      if s.Err? {
        return Err(s.error);
      }
      PrependTwice(suggestedHosts, [s.value], SuggestEach(collated, habitats[i + 1..]));
      suggestedHosts := suggestedHosts + [s.value];
    }
    assert habitats[|habitats|..] == [];
    assert suggestedHosts + [] == suggestedHosts;
    r := Ok(suggestedHosts);
  }

  /** `done` followed by the outcome of the rest. */
  function Prepend(done: seq<string>, rest: Result<seq<string>, SuggestError>): Result<seq<string>, SuggestError> {
    match rest
    case Err(e) => Err(e)
    case Ok(more) => Ok(done + more)
  }

  lemma PrependNothing(rest: Result<seq<string>, SuggestError>)
    ensures Prepend([], rest) == rest
  {
    if rest.Ok? {
      assert [] + rest.value == rest.value;
    }
  }

  lemma PrependTwice(a: seq<string>, b: seq<string>, rest: Result<seq<string>, SuggestError>)
    ensures Prepend(a + b, rest) == Prepend(a, Prepend(b, rest))
  {
    if rest.Ok? {
      assert a + b + rest.value == a + (b + rest.value);
    }
  }

  /** A runs_on token that asks for suggestions: "AUTO" or an all-caps habitat. */
  predicate NeedsYamls(token: string) {
    token == "AUTO" || token == Upper(token)
  }

  /** What suggest_runs_on turns one token into. */
  function MungeToken(collated: Collated, token: string): Result<string, SuggestError> {
    if token == "AUTO" then AllHosts(collated)
    else if token == Upper(token) then SuggestHostsForHabitat(collated, Lower(token))
    else Ok(token)
  }

  /** Every token in turn; the first failure, if any. */
  function MungeTokens(collated: Collated, tokens: seq<string>): Result<seq<string>, SuggestError>
    decreases |tokens|
  {
    if tokens == [] then Ok([])
    else match MungeToken(collated, tokens[0])
      case Err(e) => Err(e)
      case Ok(s) => Prepend([s], MungeTokens(collated, tokens[1..]))
  }

  /** suggest_runs_on as a value, for the collated yamls the loader would produce. */
  function RunsOn(runsOn: Option<string>, collated: Collated): Result<string, SuggestError> {
    match MungeTokens(collated, Split(runsOn.GetOr("AUTO"), ','))
    case Err(e) => Err(e)
    case Ok(munged) => Ok(Join(munged, ","))
  }

  /**
   * Tokens that ask for nothing are copied unchanged and in place; the result
   * has one entry per token.
   */
  lemma {:induction false} MungeTokensKeepsPlainTokens(collated: Collated, tokens: seq<string>)
    ensures var r := MungeTokens(collated, tokens);
      r.Ok? ==>
        && |r.value| == |tokens|
        && forall i :: 0 <= i < |tokens| && !NeedsYamls(tokens[i]) ==> r.value[i] == tokens[i]
    decreases |tokens|
  {
    if tokens != [] {
      MungeTokensKeepsPlainTokens(collated, tokens[1..]);
      var r := MungeTokens(collated, tokens);
      if r.Ok? {
        forall i | 0 <= i < |tokens| && !NeedsYamls(tokens[i]) ensures r.value[i] == tokens[i] {
          if i > 0 {
            assert tokens[1..][i - 1] == tokens[i];
          }
        }
      }
    }
  }

  /** Without "AUTO" or an all-caps token, suggest_runs_on returns its input unchanged. */
  lemma PlainRunsOnUnchanged(runsOn: string, collated: Collated)
    requires forall t :: t in Split(runsOn, ',') ==> !NeedsYamls(t)
    ensures RunsOn(Some(runsOn), collated) == Ok(runsOn)
  {
    var tokens := Split(runsOn, ',');
    MungeTokensOfPlain(collated, tokens);
    JoinSplit(runsOn, ',');
  }

  lemma {:induction false} MungeTokensOfPlain(collated: Collated, tokens: seq<string>)
    requires forall t :: t in tokens ==> !NeedsYamls(t)
    ensures MungeTokens(collated, tokens) == Ok(tokens)
    decreases |tokens|
  {
    if tokens != [] {
      assert tokens[0] in tokens;
      MungeTokensOfPlain(collated, tokens[1..]);
      assert tokens == [tokens[0]] + tokens[1..];
    }
  }

  /** Whether any token asks for suggestions. */
  predicate AnyNeedsYamls(tokens: seq<string>) {
    exists i :: 0 <= i < |tokens| && NeedsYamls(tokens[i])
  }

  lemma AnyNeedsYamlsExtend(tokens: seq<string>, i: nat)
    requires i < |tokens|
    ensures AnyNeedsYamls(tokens[..i + 1]) <==> AnyNeedsYamls(tokens[..i]) || NeedsYamls(tokens[i])
  {
    var a, b := tokens[..i], tokens[..i + 1];
    assert forall j :: 0 <= j < i ==> a[j] == b[j];
    if AnyNeedsYamls(b) {
      var j :| 0 <= j < |b| && NeedsYamls(b[j]);
      assert j == i || a[j] == b[j];
    }
    if NeedsYamls(tokens[i]) {
      assert b[i] == tokens[i];
    }
  }

  /**
   * suggest_runs_on. `loaded` is what service_configuration would load and
   * collate; `loads` counts how many times the memoised loader actually runs:
   * once if some token asks for suggestions, never otherwise.
   */
  method SuggestRunsOn(runsOn: Option<string>, loaded: Collated) returns (r: Result<string, SuggestError>, loads: nat)
    ensures r == RunsOn(runsOn, loaded)
    ensures loads == if AnyNeedsYamls(Split(runsOn.GetOr("AUTO"), ',')) then 1 else 0
  {
    var input := if runsOn.None? then "AUTO" else runsOn.value;
    var tokens := Split(input, ',');
    var collated: Option<Collated> := None;
    loads := 0;
    var munged: seq<string> := [];
    assert tokens[0..] == tokens;
    PrependNothing(MungeTokens(loaded, tokens));
    for i := 0 to |tokens|
      invariant MungeTokens(loaded, tokens) == Prepend(munged, MungeTokens(loaded, tokens[i..]))
      invariant collated.Some? ==> collated.value == loaded
      invariant loads == (if AnyNeedsYamls(tokens[..i]) then 1 else 0)
      invariant collated.Some? <==> loads == 1
    {
      assert tokens[i..][1..] == tokens[i + 1..];
      AnyNeedsYamlsExtend(tokens, i);
      var thing := tokens[i];
      if thing == "AUTO" {
        collated, loads := Memoized(collated, loaded, loads);
        var s := SuggestAllHosts(collated.value);
        if s.Err? {
          r := Err(s.error);
          assert NeedsYamls(tokens[i]);
          return;
        }
        PrependTwice(munged, [s.value], MungeTokens(loaded, tokens[i + 1..]));
        munged := munged + [s.value];
      } else if thing == Upper(thing) {
        collated, loads := Memoized(collated, loaded, loads);
        var s := SuggestHostsForHabitat(collated.value, Lower(thing));
        if s.Err? {
          r := Err(s.error);
          assert NeedsYamls(tokens[i]);
          return;
        }
        PrependTwice(munged, [s.value], MungeTokens(loaded, tokens[i + 1..]));
        munged := munged + [s.value];
      } else {
        PrependTwice(munged, [thing], MungeTokens(loaded, tokens[i + 1..]));
        munged := munged + [thing];
      }
    }
    assert tokens[|tokens|..] == [] && tokens[..|tokens|] == tokens;
    assert munged + [] == munged;
    r := Ok(Join(munged, ","));
  }

  /** The memoised singleton: load the collated yamls on first use, then reuse them. */
  method Memoized(memo: Option<Collated>, loaded: Collated, loads: nat) returns (value: Option<Collated>, loadsAfter: nat)
    requires memo.Some? ==> memo.value == loaded
    requires memo.Some? <==> loads == 1
    requires loads <= 1
    ensures value == Some(loaded) && loadsAfter == 1
  {
    if memo.None? {
      value, loadsAfter := Some(loaded), loads + 1;
    } else {
      value, loadsAfter := memo, loads;
    }
  }
}

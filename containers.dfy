/** The second evaluator, resources/internal/resources/checks.go, modelled as it
    is written: `CheckResourceRL` looks each key of a map up in that same map, so
    its two comparisons set a quantity against itself, and its CPU/Memory check
    runs once per key of the map being ranged and tests only that map. Messages
    are collected locally and then replayed through the dispatcher. */
module Containers {
  import opened Types
  import opened Sink
  import opened Evaluator
  import opened Poller

  /** The comparisons of checks.go:56-62 for key `k` of `m`: the quantity found by
      the lookup in `m` is set against the one the range yields from `m`. */
  function DraftCompare(info: PodInfo, m: ResourceList, k: ResourceName): seq<Message> {
    if k in m then
      var resourceQuantity, requestQuantity := m[k], m[k];
      (if resourceQuantity < requestQuantity then [ExceedsRequestLimit(info.name, info.namespace, k, resourceQuantity)] else []) +
      (if resourceQuantity > requestQuantity then [ExceedsLimit(info.name, info.namespace, k, resourceQuantity)] else [])
    else []
  }

  /** The inner canonical check for one type: both wordings test the same map `m`. */
  function DraftGaps(info: PodInfo, m: ResourceList, name: ResourceName): seq<Message> {
    (if name !in m then [NoLimitSet(info.name, info.namespace, name, info.usage)] else []) +
    (if name !in m then [NoRequestSet(info.name, info.namespace, name, info.usage)] else [])
  }

  /** The inner canonical loop over the resource types `names`, in order. */
  function DraftCanonical(info: PodInfo, m: ResourceList, names: seq<ResourceName>): seq<Message> {
    if names == [] then []
    else DraftCanonical(info, m, names[..|names| - 1]) + DraftGaps(info, m, names[|names| - 1])
  }

  /** Everything collected for one key `k` of the ranged map `m`. */
  function DraftKey(info: PodInfo, m: ResourceList, k: ResourceName): seq<Message> {
    DraftCompare(info, m, k) + DraftCanonical(info, m, Canonical)
  }

  /** Everything collected while ranging `m` in the order `keys`. */
  function DraftMap(info: PodInfo, m: ResourceList, keys: seq<ResourceName>): seq<Message> {
    if keys == [] then []
    else DraftMap(info, m, keys[..|keys| - 1]) + DraftKey(info, m, keys[|keys| - 1])
  }

  /** Everything collected over the maps `maps`, the `t`-th ranged in the order `orders[t]`. */
  function DraftMaps(info: PodInfo, maps: seq<ResourceList>, orders: seq<seq<ResourceName>>): seq<Message>
    requires |maps| == |orders|
  {
    if maps == [] then []
    else
      var n := |maps| - 1;
      DraftMaps(info, maps[..n], orders[..n]) + DraftMap(info, maps[n], orders[n])
  }

  /** Everything `CheckResourceRL` dispatches when the limits map is ranged in the
      order `limitKeys` and the requests map in `requestKeys`. */
  function DraftMessages(info: PodInfo, limitKeys: seq<ResourceName>, requestKeys: seq<ResourceName>): seq<Message> {
    DraftMap(info, info.resources.limits, limitKeys) + DraftMap(info, info.resources.requests, requestKeys)
  }

  /** How many of CPU and Memory the map `m` lacks. */
  function Absent(m: ResourceList): (n: nat)
    ensures n <= 2
    ensures n == 0 <==> Cpu in m && Memory in m
  {
    (if Cpu !in m then 1 else 0) + (if Memory !in m then 1 else 0)
  }

  /** `ExtractUsageInfo`'s entry for one metrics container: as in the main
      program, plus the ephemeral storage in bytes. */
  function DraftUsage(mc: ContainerMetrics): (u: UsageInfo)
    ensures u.name == mc.name && u.cpu == mc.cpuMilli
    ensures mc.memoryBytes >= 0 ==> u.memory * MiB <= mc.memoryBytes < (u.memory + 1) * MiB
    ensures u.ephemeralStorage == mc.storageBytes
  {
    UsageInfo(mc.name, mc.cpuMilli, ToMiB(mc.memoryBytes), mc.storageBytes)
  }

  // ---------------------------------------------------------------------------
  // Loop steps of the specification functions

  lemma CanonicalPrefix(info: PodInfo, m: ResourceList, names: seq<ResourceName>, j: nat)
    requires j < |names|
    ensures DraftCanonical(info, m, names[..j + 1]) == DraftCanonical(info, m, names[..j]) + DraftGaps(info, m, names[j])
  {
    assert names[..j + 1][..j] == names[..j];
  }

  lemma CanonicalAll(info: PodInfo, m: ResourceList, names: seq<ResourceName>)
    ensures DraftCanonical(info, m, names[..|names|]) == DraftCanonical(info, m, names)
  {
    assert names[..|names|] == names;
  }

  lemma MapPrefix(info: PodInfo, m: ResourceList, keys: seq<ResourceName>, i: nat)
    requires i < |keys|
    ensures DraftMap(info, m, keys[..i + 1]) == DraftMap(info, m, keys[..i]) + DraftKey(info, m, keys[i])
  {
    assert keys[..i + 1][..i] == keys[..i];
  }

  lemma MapAll(info: PodInfo, m: ResourceList, keys: seq<ResourceName>)
    ensures DraftMap(info, m, keys[..|keys|]) == DraftMap(info, m, keys)
  {
    assert keys[..|keys|] == keys;
  }

  lemma MapsStep(info: PodInfo, maps: seq<ResourceList>, orders: seq<seq<ResourceName>>, keys: seq<ResourceName>)
    requires |orders| < |maps|
    ensures DraftMaps(info, maps[..|orders| + 1], orders + [keys]) ==
            DraftMaps(info, maps[..|orders|], orders) + DraftMap(info, maps[|orders|], keys)
  {
    var r := |orders|;
    assert maps[..r + 1][..r] == maps[..r];
    assert (orders + [keys])[..r] == orders;
  }

  lemma MapsAll(info: PodInfo, maps: seq<ResourceList>, orders: seq<seq<ResourceName>>)
    requires |maps| == |orders|
    ensures DraftMaps(info, maps[..|maps|], orders) == DraftMaps(info, maps, orders)
  {
    assert maps[..|maps|] == maps;
  }

  /** Both maps ranged: the collected messages are those of the limits map, then
      those of the requests map. */
  lemma MapsPair(info: PodInfo, orders: seq<seq<ResourceName>>)
    requires |orders| == 2
    ensures DraftMaps(info, [info.resources.limits, info.resources.requests], orders) ==
            DraftMessages(info, orders[0], orders[1])
  {
    var limits, requests := info.resources.limits, info.resources.requests;
    assert [limits, requests][..1] == [limits] && orders[..1] == [orders[0]];
    assert [limits][..0] == [] && [orders[0]][..0] == [];
    assert DraftMaps(info, [limits], [orders[0]]) == DraftMap(info, limits, orders[0]);
  }

  // ---------------------------------------------------------------------------
  // The methods, as the Go code runs them

  /** The body of the per-key loop of checks.go:55-73: the self-comparison, then
      the nested canonical loop over CPU and Memory, appending to `messages`. */
  method CollectKey(info: PodInfo, resource: ResourceList, resourceName: ResourceName, messages: seq<Message>)
    returns (messages': seq<Message>)
    requires resourceName in resource
    ensures messages' == messages + DraftKey(info, resource, resourceName)
  {
    var resourceQuantity := resource[resourceName];
    messages' := messages;
    var requestQuantity := resource[resourceName];
    if resourceQuantity < requestQuantity {
      messages' := messages' + [ExceedsRequestLimit(info.name, info.namespace, resourceName, resourceQuantity)];
    }
    if resourceQuantity > requestQuantity {
      messages' := messages' + [ExceedsLimit(info.name, info.namespace, resourceName, resourceQuantity)];
    }
    ghost var compared := messages';
    assert compared == messages + DraftCompare(info, resource, resourceName);
    for j := 0 to |Canonical|
      invariant messages' == compared + DraftCanonical(info, resource, Canonical[..j])
    {
      var name := Canonical[j];
      CanonicalPrefix(info, resource, Canonical, j);
      if name !in resource {
        messages' := messages' + [NoLimitSet(info.name, info.namespace, name, info.usage)];
      }
      if name !in resource {
        messages' := messages' + [NoRequestSet(info.name, info.namespace, name, info.usage)];
      }
    }
    CanonicalAll(info, resource, Canonical);
  }

  /** The per-key loop over one map, visiting its keys in the order `keys`. */
  method CollectKeys(info: PodInfo, resource: ResourceList, keys: seq<ResourceName>, messages: seq<Message>)
    returns (messages': seq<Message>)
    requires forall i | 0 <= i < |keys| :: keys[i] in resource
    ensures messages' == messages + DraftMap(info, resource, keys)
  {
    messages' := messages;
    ghost var collected: seq<Message> := [];
    for i := 0 to |keys|
      invariant messages' == messages + collected
      invariant collected == DraftMap(info, resource, keys[..i])
    {
      var resourceName := keys[i];
      messages' := CollectKey(info, resource, resourceName, messages');
      MapPrefix(info, resource, keys, i);
      collected := collected + DraftKey(info, resource, resourceName);
    }
    MapAll(info, resource, keys);
  }

  /** The per-key loop over one map, ranged in an unspecified order. */
  method CollectMap(info: PodInfo, resource: ResourceList, messages: seq<Message>)
    returns (messages': seq<Message>, keys: seq<ResourceName>)
    ensures Enumerates(keys, resource.Keys)
    ensures messages' == messages + DraftMap(info, resource, keys)
  {
    keys := RangeOrder(resource.Keys);
    EnumeratesMembers(keys, resource.Keys);
    messages' := CollectKeys(info, resource, keys, messages);
  }

  /** The collecting loops of `CheckResourceRL`: the limits map, then the
      requests map, each ranged in an unspecified order. */
  method Collect(info: PodInfo) returns (messages: seq<Message>, limitKeys: seq<ResourceName>, requestKeys: seq<ResourceName>)
    ensures Enumerates(limitKeys, info.resources.limits.Keys)
    ensures Enumerates(requestKeys, info.resources.requests.Keys)
    ensures messages == DraftMessages(info, limitKeys, requestKeys)
  {
    messages := [];
    var resources := [info.resources.limits, info.resources.requests];
    var orders: seq<seq<ResourceName>> := [];
    for r := 0 to |resources|
      invariant |orders| == r
      invariant forall t | 0 <= t < r :: Enumerates(orders[t], resources[t].Keys)
      invariant messages == DraftMaps(info, resources[..r], orders)
    {
      var collected, keys := CollectMap(info, resources[r], messages);
      MapsStep(info, resources, orders, keys);
      messages := collected;
      orders := orders + [keys];
    }
    MapsAll(info, resources, orders);
    MapsPair(info, orders);
    limitKeys, requestKeys := orders[0], orders[1];
  }

  /** The closing loop of `CheckResourceRL`: each collected message is handed to
      the dispatcher once, in collection order. */
  method Replay(messages: seq<Message>, d: Dispatcher)
    requires d.Valid()
    modifies d
    ensures d.Valid()
    ensures d.Emitted() == old(d.Emitted()) + messages
  {
    for i := 0 to |messages|
      invariant d.Valid()
      invariant d.Emitted() == old(d.Emitted()) + messages[..i]
    {
      assert messages[..i + 1] == messages[..i] + [messages[i]];
      d.SendOrAppend(messages[i]);
    }
    assert messages[..|messages|] == messages;
  }

  /** `CheckResourceRL`: collect every message locally, then dispatch them. */
  method CheckResourceRL(info: PodInfo, d: Dispatcher)
    returns (limitKeys: seq<ResourceName>, requestKeys: seq<ResourceName>)
    requires d.Valid()
    modifies d
    ensures d.Valid()
    ensures Enumerates(limitKeys, info.resources.limits.Keys)
    ensures Enumerates(requestKeys, info.resources.requests.Keys)
    ensures d.Emitted() == old(d.Emitted()) + DraftMessages(info, limitKeys, requestKeys)
  {
    var messages;
    messages, limitKeys, requestKeys := Collect(info);
    Replay(messages, d);
  }

  /** The draft `CheckResources`: with Slack enabled every message is posted and
      nothing is logged; otherwise the messages are buffered and, when there is
      at least one, logged together exactly once. */
  method CheckResources(info: PodInfo, slackEnabled: bool)
    returns (sent: seq<Message>, logged: seq<seq<Message>>,
             limitKeys: seq<ResourceName>, requestKeys: seq<ResourceName>)
    ensures Enumerates(limitKeys, info.resources.limits.Keys)
    ensures Enumerates(requestKeys, info.resources.requests.Keys)
    ensures sent == if slackEnabled then DraftMessages(info, limitKeys, requestKeys) else []
    ensures logged == if !slackEnabled && DraftMessages(info, limitKeys, requestKeys) != []
                      then [DraftMessages(info, limitKeys, requestKeys)] else []
  {
    var d := new Dispatcher(slackEnabled);
    limitKeys, requestKeys := CheckResourceRL(info, d);
    assert [] + DraftMessages(info, limitKeys, requestKeys) == DraftMessages(info, limitKeys, requestKeys);
    sent := d.sent;
    if |d.messages| > 0 && !d.slackEnabled {
      logged := [d.messages];
    } else {
      logged := [];
    }
  }

  /** The draft `ExtractUsageInfo`: one entry per metrics container, in order,
      with CPU in milli-units, memory in whole MiB and ephemeral storage in bytes. */
  method ExtractUsageInfo(metrics: seq<ContainerMetrics>) returns (usageInfo: seq<UsageInfo>)
    ensures |usageInfo| == |metrics|
    ensures usageInfo == UsageList(metrics, DraftUsage)
  {
    usageInfo := [];
    for i := 0 to |metrics|
      invariant |usageInfo| == i
      invariant forall k | 0 <= k < i :: usageInfo[k] == DraftUsage(metrics[k])
    {
      var mc := metrics[i];
      usageInfo := usageInfo + [UsageInfo(mc.name, mc.cpuMilli, ToMiB(mc.memoryBytes), mc.storageBytes)];
    }
  }

  /** The inner loop of the draft `GetPodInfo` over the containers of one listed pod. */
  method AppendContainers(pod: Pod, i: nat, fetch: Fetch, podInfo: seq<PodInfo>, fetchErrors: nat)
    returns (podInfo': seq<PodInfo>, fetchErrors': nat)
    ensures podInfo' == podInfo + ContainerEntries(pod, i, fetch, DraftUsage, |pod.containers|)
    ensures fetchErrors' == fetchErrors + ContainerFailures(pod, i, fetch, |pod.containers|)
  {
    podInfo', fetchErrors' := podInfo, fetchErrors;
    for j := 0 to |pod.containers|
      invariant podInfo' == podInfo + ContainerEntries(pod, i, fetch, DraftUsage, j)
      invariant fetchErrors' == fetchErrors + ContainerFailures(pod, i, fetch, j)
    {
      var container := pod.containers[j];
      var metrics := fetch(i, j);
      match metrics
      case Failed =>
        fetchErrors' := fetchErrors' + 1;
      case Ok(podMetrics) =>
        var usageInfo := ExtractUsageInfo(podMetrics);
        podInfo' := podInfo' + [PodInfo(pod.name, pod.namespace, container.resources, usageInfo)];
    }
  }

  /** The draft `GetPodInfo`: the same walk as the main program's, with the
      draft's usage entries. */
  method GetPodInfo(listing: Outcome<seq<Pod>>, fetch: Fetch) returns (result: Outcome<seq<PodInfo>>, fetchErrors: nat)
    ensures listing.Failed? ==> result == Failed && fetchErrors == 0
    ensures listing.Ok? ==> result == Ok(PodInfos(listing.value, fetch, DraftUsage)) &&
                            fetchErrors == FetchFailures(listing.value, fetch)
  {
    if listing.Failed? {
      return Failed, 0;
    }
    var pods := listing.value;
    var podInfo: seq<PodInfo> := [];
    fetchErrors := 0;
    for i := 0 to |pods|
      invariant podInfo == PodInfos(pods[..i], fetch, DraftUsage)
      invariant fetchErrors == FetchFailures(pods[..i], fetch)
    {
      var pod := pods[i];
      assert pods[..i + 1][..i] == pods[..i];
      if pod.namespace != SystemNamespace {
        podInfo, fetchErrors := AppendContainers(pod, i, fetch, podInfo, fetchErrors);
      }
    }
    assert pods[..|pods|] == pods;
    result := Ok(podInfo);
  }

  // ---------------------------------------------------------------------------
  // Properties of the draft

  /** The inner canonical loop as the two per-type groups, CPU first. */
  lemma CanonicalIsGaps(info: PodInfo, m: ResourceList)
    ensures DraftCanonical(info, m, Canonical) == DraftGaps(info, m, Cpu) + DraftGaps(info, m, Memory)
  {
    assert Canonical[..1] == [Cpu] && [Cpu][..0] == [];
    assert DraftCanonical(info, m, [Cpu]) == DraftGaps(info, m, Cpu);
  }

  /** Every key of a map draws the same block: two WARNINGs per canonical type
      the map lacks, and nothing else. */
  lemma KeyBlock(info: PodInfo, m: ResourceList, k: ResourceName)
    ensures DraftKey(info, m, k) == DraftCanonical(info, m, Canonical)
    ensures |DraftKey(info, m, k)| == 2 * Absent(m)
    ensures forall msg | msg in DraftKey(info, m, k) :: !msg.IsAlert()
  {
    CanonicalIsGaps(info, m);
  }

  /** Ranging one map repeats that block once per visited key. */
  lemma {:induction false} MapCount(info: PodInfo, m: ResourceList, keys: seq<ResourceName>)
    ensures |DraftMap(info, m, keys)| == |keys| * (2 * Absent(m))
  {
    if keys != [] {
      var n := |keys| - 1;
      var c := 2 * Absent(m);
      MapCount(info, m, keys[..n]);
      KeyBlock(info, m, keys[n]);
      assert |DraftMap(info, m, keys)| == n * c + c;
      assert (n + 1) * c == n * c + c;
    }
  }

  /** Ranging one map never collects an ALERT. */
  lemma {:induction false} MapNoAlerts(info: PodInfo, m: ResourceList, keys: seq<ResourceName>)
    ensures forall msg | msg in DraftMap(info, m, keys) :: !msg.IsAlert()
  {
    if keys != [] {
      var n := |keys| - 1;
      MapNoAlerts(info, m, keys[..n]);
      KeyBlock(info, m, keys[n]);
    }
  }

  /** `CheckResourceRL` never dispatches an ALERT. */
  lemma DraftNeverAlerts(info: PodInfo, limitKeys: seq<ResourceName>, requestKeys: seq<ResourceName>)
    ensures Alerts(DraftMessages(info, limitKeys, requestKeys)) == 0
  {
    MapNoAlerts(info, info.resources.limits, limitKeys);
    MapNoAlerts(info, info.resources.requests, requestKeys);
  }

  /** Ranging a whole map draws two WARNINGs per key and per canonical type it lacks. */
  lemma MapTotal(info: PodInfo, m: ResourceList, keys: seq<ResourceName>)
    requires Enumerates(keys, m.Keys)
    ensures |DraftMap(info, m, keys)| == |m| * 2 * Absent(m)
  {
    EnumeratesDistinct(keys, m.Keys);
    MapCount(info, m, keys);
    assert |keys| == |m|;
  }

  /** `CheckResourceRL` dispatches, for each map, two WARNINGs per key of the map
      and per canonical type the map lacks. */
  lemma DraftCount(info: PodInfo, limitKeys: seq<ResourceName>, requestKeys: seq<ResourceName>)
    requires Enumerates(limitKeys, info.resources.limits.Keys)
    requires Enumerates(requestKeys, info.resources.requests.Keys)
    ensures |DraftMessages(info, limitKeys, requestKeys)| ==
            |info.resources.limits| * 2 * Absent(info.resources.limits) +
            |info.resources.requests| * 2 * Absent(info.resources.requests)
  {
    MapTotal(info, info.resources.limits, limitKeys);
    MapTotal(info, info.resources.requests, requestKeys);
  }

  /** A map that declares both CPU and Memory contributes nothing, whatever else it holds. */
  lemma CompleteMapSilent(info: PodInfo, m: ResourceList, keys: seq<ResourceName>)
    requires Cpu in m && Memory in m
    ensures DraftMap(info, m, keys) == []
  {
    MapCount(info, m, keys);
  }

  // ---------------------------------------------------------------------------
  // Where the draft and the three-pass evaluator disagree

  /** With nothing declared, the three-pass evaluator emits four WARNINGs and
      the draft none. */
  lemma UndeclaredDiverges(info: PodInfo, limitKeys: seq<ResourceName>, requestKeys: seq<ResourceName>)
    requires info.resources.limits == map[] && info.resources.requests == map[]
    requires Enumerates(limitKeys, info.resources.limits.Keys)
    requires Enumerates(requestKeys, info.resources.requests.Keys)
    ensures |Evaluate(info, limitKeys, requestKeys)| == 4
    ensures DraftMessages(info, limitKeys, requestKeys) == []
  {
    NothingDeclaredFourWarnings(info, limitKeys, requestKeys);
  }

  /** With a CPU limit below the CPU request, the three-pass evaluator raises two
      ALERTs and the draft none. */
  lemma LimitBelowRequestDiverges(info: PodInfo, limitKeys: seq<ResourceName>, requestKeys: seq<ResourceName>)
    requires info.resources.limits == map[Cpu := 100] && info.resources.requests == map[Cpu := 200]
    requires Enumerates(limitKeys, info.resources.limits.Keys)
    requires Enumerates(requestKeys, info.resources.requests.Keys)
    ensures Alerts(Evaluate(info, limitKeys, requestKeys)) == 2
    ensures Alerts(DraftMessages(info, limitKeys, requestKeys)) == 0
  {
    CpuLimitBelowRequestScenario(info, limitKeys, requestKeys);
    DraftNeverAlerts(info, limitKeys, requestKeys);
  }

  /** limits = {cpu}, requests = {}: the draft has no branch for a key declared
      in one map only, and tests the ranged limits map for both canonical
      wordings, so it reports just the missing Memory limit and request; the
      three-pass evaluator also flags the CPU limit without a request and the
      missing CPU request. */
  lemma LimitOnlyDiverges(info: PodInfo, limitKeys: seq<ResourceName>, requestKeys: seq<ResourceName>, q: Quantity)
    requires info.resources.limits == map[Cpu := q] && info.resources.requests == map[]
    requires Enumerates(limitKeys, info.resources.limits.Keys)
    requires Enumerates(requestKeys, info.resources.requests.Keys)
    ensures DraftMessages(info, limitKeys, requestKeys) ==
            [NoLimitSet(info.name, info.namespace, Memory, info.usage), NoRequestSet(info.name, info.namespace, Memory, info.usage)]
    ensures LimitWithoutRequest(info.name, info.namespace, Cpu, q) in Evaluate(info, limitKeys, requestKeys)
    ensures NoRequestSet(info.name, info.namespace, Cpu, info.usage) in Evaluate(info, limitKeys, requestKeys)
  {
    SingleKeyOrder(limitKeys, Cpu);
    assert requestKeys == [];
    SingleMapDraft(info, info.resources.limits, Cpu);
    LimitOnlyKey(info, limitKeys, requestKeys, Cpu);
    AboutWithin(Evaluate(info, limitKeys, requestKeys), Cpu);
  }

  /** Ranging a map of one key collects that key's block: the canonical gaps of the map. */
  lemma SingleMapDraft(info: PodInfo, m: ResourceList, k: ResourceName)
    ensures DraftMap(info, m, [k]) == DraftGaps(info, m, Cpu) + DraftGaps(info, m, Memory)
  {
    assert [k][..0] == [];
    KeyBlock(info, m, k);
    CanonicalIsGaps(info, m);
  }

  /** limits = {cpu, memory}, requests = {cpu}: the draft reports a missing Memory
      limit although one is declared, because the requests map is the one it
      tests; the three-pass evaluator reports no missing Memory limit. */
  lemma MissingLimitMisreported(info: PodInfo, limitKeys: seq<ResourceName>, requestKeys: seq<ResourceName>)
    requires info.resources.limits == map[Cpu := 100, Memory := 100] && info.resources.requests == map[Cpu := 100]
    requires Enumerates(limitKeys, info.resources.limits.Keys)
    requires Enumerates(requestKeys, info.resources.requests.Keys)
    ensures Memory in info.resources.limits
    ensures NoLimitSet(info.name, info.namespace, Memory, info.usage) in DraftMessages(info, limitKeys, requestKeys)
    ensures NoLimitSet(info.name, info.namespace, Memory, info.usage) !in Evaluate(info, limitKeys, requestKeys)
  {
    var requests := info.resources.requests;
    var m := NoLimitSet(info.name, info.namespace, Memory, info.usage);
    SingleKeyOrder(requestKeys, Cpu);
    assert [Cpu][..0] == [];
    assert DraftMap(info, requests, requestKeys) == DraftKey(info, requests, Cpu);
    KeyBlock(info, requests, Cpu);
    CanonicalIsGaps(info, requests);
    assert m in DraftGaps(info, requests, Memory);
    assert m in DraftMap(info, requests, requestKeys);
    EvaluateAbout(info, limitKeys, requestKeys, Memory);
    if m in Evaluate(info, limitKeys, requestKeys) {
      AboutHas(Evaluate(info, limitKeys, requestKeys), m);
      assert false;
    }
  }
}

/** The per-cycle data shaping of resources/resources.go: turning the listed pods
    and their metrics into one record per inspected container (`getPodInfo`,
    `extractUsageInfo`), and the body of one tick of the main loop. */
module Poller {
  import opened Types
  import opened Evaluator

  /** The answer of the metrics API to the fetch made for container `j` of the
      `i`-th listed pod: the pod's per-container metrics, or an error. */
  type Fetch = (nat, nat) -> Outcome<seq<ContainerMetrics>>

  /** `extractUsageInfo`'s entry for one metrics container: CPU in milli-units,
      memory in whole MiB, ephemeral storage left at Go's zero value. */
  function Usage(mc: ContainerMetrics): (u: UsageInfo)
    ensures u.name == mc.name && u.cpu == mc.cpuMilli
    ensures mc.memoryBytes >= 0 ==> u.memory * MiB <= mc.memoryBytes < (u.memory + 1) * MiB
    ensures u.ephemeralStorage == 0
  {
    UsageInfo(mc.name, mc.cpuMilli, ToMiB(mc.memoryBytes), 0)
  }

  /** The usage list built from a pod's metrics, one entry per metrics container. */
  function UsageList(metrics: seq<ContainerMetrics>, extract: ContainerMetrics -> UsageInfo): seq<UsageInfo> {
    seq(|metrics|, i requires 0 <= i < |metrics| => extract(metrics[i]))
  }

  /** The record built for container `j` of `pod` from the pod's metrics. */
  function Entry(pod: Pod, j: nat, metrics: seq<ContainerMetrics>, extract: ContainerMetrics -> UsageInfo): PodInfo
    requires j < |pod.containers|
  {
    PodInfo(pod.name, pod.namespace, pod.containers[j].resources, UsageList(metrics, extract))
  }

  /** The records built for the first `j` containers of `pod`, the `i`-th listed pod. */
  function ContainerEntries(pod: Pod, i: nat, fetch: Fetch, extract: ContainerMetrics -> UsageInfo, j: nat): seq<PodInfo>
    requires j <= |pod.containers|
  {
    if j == 0 then []
    else
      ContainerEntries(pod, i, fetch, extract, j - 1) +
      match fetch(i, j - 1)
      case Failed => []
      case Ok(metrics) => [Entry(pod, j - 1, metrics, extract)]
  }

  /** The number of failed metrics fetches among the first `j` containers of `pod`. */
  function ContainerFailures(pod: Pod, i: nat, fetch: Fetch, j: nat): nat
    requires j <= |pod.containers|
  {
    if j == 0 then 0
    else ContainerFailures(pod, i, fetch, j - 1) + if fetch(i, j - 1).Failed? then 1 else 0
  }

  /** The records `getPodInfo` builds from the listed `pods`, in pod and container order. */
  function PodInfos(pods: seq<Pod>, fetch: Fetch, extract: ContainerMetrics -> UsageInfo): seq<PodInfo> {
    if pods == [] then []
    else
      var n := |pods| - 1;
      PodInfos(pods[..n], fetch, extract) +
      if pods[n].namespace == SystemNamespace then []
      else ContainerEntries(pods[n], n, fetch, extract, |pods[n].containers|)
  }

  /** The number of metrics fetches that fail while `getPodInfo` walks `pods`. */
  function FetchFailures(pods: seq<Pod>, fetch: Fetch): nat {
    if pods == [] then 0
    else
      var n := |pods| - 1;
      FetchFailures(pods[..n], fetch) +
      if pods[n].namespace == SystemNamespace then 0
      else ContainerFailures(pods[n], n, fetch, |pods[n].containers|)
  }

  /** The number of containers of the listed pods outside the system namespace. */
  function InspectedContainers(pods: seq<Pod>): nat {
    if pods == [] then 0
    else
      var n := |pods| - 1;
      InspectedContainers(pods[..n]) + if pods[n].namespace == SystemNamespace then 0 else |pods[n].containers|
  }

  // ---------------------------------------------------------------------------
  // The methods, as the Go code runs them

  /** `extractUsageInfo`: one usage entry per metrics container, in the same order. */
  method ExtractUsageInfo(metrics: seq<ContainerMetrics>) returns (usageInfo: seq<UsageInfo>)
    ensures |usageInfo| == |metrics|
    ensures usageInfo == UsageList(metrics, Usage)
  {
    usageInfo := [];
    for i := 0 to |metrics|
      invariant |usageInfo| == i
      invariant forall k | 0 <= k < i :: usageInfo[k] == Usage(metrics[k])
    {
      var mc := metrics[i];
      usageInfo := usageInfo + [UsageInfo(mc.name, mc.cpuMilli, ToMiB(mc.memoryBytes), 0)];
    }
  }

  /** The inner loop of `getPodInfo` over the containers of one listed pod. */
  method AppendContainers(pod: Pod, i: nat, fetch: Fetch, podInfo: seq<PodInfo>, fetchErrors: nat)
    returns (podInfo': seq<PodInfo>, fetchErrors': nat)
    ensures podInfo' == podInfo + ContainerEntries(pod, i, fetch, Usage, |pod.containers|)
    ensures fetchErrors' == fetchErrors + ContainerFailures(pod, i, fetch, |pod.containers|)
  {
    podInfo', fetchErrors' := podInfo, fetchErrors;
    for j := 0 to |pod.containers|
      invariant podInfo' == podInfo + ContainerEntries(pod, i, fetch, Usage, j)
      invariant fetchErrors' == fetchErrors + ContainerFailures(pod, i, fetch, j)
    {
      var container := pod.containers[j];
      var metrics := fetch(i, j);
      match metrics
      case Failed =>
        fetchErrors' := fetchErrors' + 1;
      case Ok(podMetrics) =>
        var usageInfo := ExtractUsageInfo(podMetrics);
        podInfo' := podInfo' + [PodInfo(pod.name, pod.namespace, container.resources, usageInfo)];
    }
  }

  /** `getPodInfo`: a listing error is returned with no records; otherwise pods
      of the system namespace are skipped, a container whose metrics fetch
      fails is logged (counted in `fetchErrors`) and omitted, and every other
      container yields one record. */
  method GetPodInfo(listing: Outcome<seq<Pod>>, fetch: Fetch) returns (result: Outcome<seq<PodInfo>>, fetchErrors: nat)
    ensures listing.Failed? ==> result == Failed && fetchErrors == 0
    ensures listing.Ok? ==> result == Ok(PodInfos(listing.value, fetch, Usage)) &&
                            fetchErrors == FetchFailures(listing.value, fetch)
  {
    if listing.Failed? {
      return Failed, 0;
    }
    var pods := listing.value;
    var podInfo: seq<PodInfo> := [];
    fetchErrors := 0;
    for i := 0 to |pods|
      invariant podInfo == PodInfos(pods[..i], fetch, Usage)
      invariant fetchErrors == FetchFailures(pods[..i], fetch)
    {
      var pod := pods[i];
      assert pods[..i + 1][..i] == pods[..i];
      if pod.namespace != SystemNamespace {
        podInfo, fetchErrors := AppendContainers(pod, i, fetch, podInfo, fetchErrors);
      }
    }
    assert pods[..|pods|] == pods;
    result := Ok(podInfo);
  }

  /** Key orders chosen by the two range loops of `checkResources` for one record. */
  datatype KeyOrder = KeyOrder(limitKeys: seq<ResourceName>, requestKeys: seq<ResourceName>)

  /** `o` ranges the two maps of `info`. */
  ghost predicate Ranges(o: KeyOrder, info: PodInfo) {
    Enumerates(o.limitKeys, info.resources.limits.Keys) &&
    Enumerates(o.requestKeys, info.resources.requests.Keys)
  }

  /** For each of the first `n` records, `orders` holds one way of ranging its maps. */
  ghost predicate OrdersFit(infos: seq<PodInfo>, orders: seq<KeyOrder>, n: nat)
    requires n <= |infos| && n <= |orders|
  {
    n == 0 || (OrdersFit(infos, orders, n - 1) && Ranges(orders[n - 1], infos[n - 1]))
  }

  /** Every message of the first `n` records of one cycle, record after record. */
  function CycleMessages(infos: seq<PodInfo>, orders: seq<KeyOrder>, n: nat): seq<Message>
    requires n <= |infos| && n <= |orders|
  {
    if n == 0 then []
    else CycleMessages(infos, orders, n - 1) + Evaluate(infos[n - 1], orders[n - 1].limitKeys, orders[n - 1].requestKeys)
  }

  /** The buffers logged for the first `n` records of one cycle with Slack
      disabled: one per record that drew a message. */
  function CycleLogs(infos: seq<PodInfo>, orders: seq<KeyOrder>, n: nat): seq<seq<Message>>
    requires n <= |infos| && n <= |orders|
  {
    if n == 0 then []
    else
      var e := Evaluate(infos[n - 1], orders[n - 1].limitKeys, orders[n - 1].requestKeys);
      CycleLogs(infos, orders, n - 1) + if e != [] then [e] else []
  }

  /** The messages of several buffers, buffer after buffer. */
  function Flatten(buffers: seq<seq<Message>>): seq<Message> {
    if buffers == [] then [] else Flatten(buffers[..|buffers| - 1]) + buffers[|buffers| - 1]
  }

  /** One tick of the main loop: a listing error is logged (`listingFailed`) and
      the cycle checks nothing; otherwise `checkResources` runs on every record,
      in order. `sent` is everything posted to Slack and `logs` the buffers
      logged, one per record that drew a message. */
  method Tick(listing: Outcome<seq<Pod>>, fetch: Fetch, slackEnabled: bool)
    returns (listingFailed: bool, fetchErrors: nat, sent: seq<Message>, logs: seq<seq<Message>>, orders: seq<KeyOrder>)
    ensures listingFailed <==> listing.Failed?
    ensures listingFailed ==> sent == [] && logs == [] && fetchErrors == 0
    ensures !listingFailed ==>
              var infos := PodInfos(listing.value, fetch, Usage);
              |orders| == |infos| && OrdersFit(infos, orders, |infos|) &&
              fetchErrors == FetchFailures(listing.value, fetch) &&
              sent == (if slackEnabled then CycleMessages(infos, orders, |infos|) else []) &&
              logs == (if slackEnabled then [] else CycleLogs(infos, orders, |infos|))
  {
    var podInfo;
    podInfo, fetchErrors := GetPodInfo(listing, fetch);
    if podInfo.Failed? {
      listingFailed, sent, logs, orders := true, [], [], [];
      return;
    }
    listingFailed := false;
    sent, logs, orders := CheckAll(podInfo.value, slackEnabled);
  }

  /** The `for _, info := range podInfo` loop of one tick. */
  method CheckAll(infos: seq<PodInfo>, slackEnabled: bool)
    returns (sent: seq<Message>, logs: seq<seq<Message>>, orders: seq<KeyOrder>)
    ensures |orders| == |infos| && OrdersFit(infos, orders, |infos|)
    ensures sent == if slackEnabled then CycleMessages(infos, orders, |infos|) else []
    ensures logs == if slackEnabled then [] else CycleLogs(infos, orders, |infos|)
  {
    sent, logs, orders := [], [], [];
    for i := 0 to |infos|
      invariant |orders| == i
      invariant OrdersFit(infos, orders, i)
      invariant sent == if slackEnabled then CycleMessages(infos, orders, i) else []
      invariant logs == if slackEnabled then [] else CycleLogs(infos, orders, i)
    {
      var info := infos[i];
      var s, l, lk, rk := CheckResources(info, slackEnabled);
      ghost var e := Evaluate(info, lk, rk);
      CycleStep(infos, orders, KeyOrder(lk, rk));
      if slackEnabled {
        assert s == e && l == [];
      } else {
        assert s == [] && l == if e != [] then [e] else [];
      }
      sent := sent + s;
      logs := logs + l;
      orders := orders + [KeyOrder(lk, rk)];
    }
  }

  /** Checking one more record extends the cycle's messages and logs by its own. */
  lemma CycleStep(infos: seq<PodInfo>, orders: seq<KeyOrder>, o: KeyOrder)
    requires |orders| < |infos|
    requires OrdersFit(infos, orders, |orders|) && Ranges(o, infos[|orders|])
    ensures OrdersFit(infos, orders + [o], |orders| + 1)
    ensures var i := |orders|;
            var e := Evaluate(infos[i], o.limitKeys, o.requestKeys);
            CycleMessages(infos, orders + [o], i + 1) == CycleMessages(infos, orders, i) + e &&
            CycleLogs(infos, orders + [o], i + 1) == CycleLogs(infos, orders, i) + if e != [] then [e] else []
  {
    CycleFrame(infos, orders, o, |orders|);
  }

  /** The messages and logs of the first `n` records do not depend on later orders. */
  lemma {:induction false} CycleFrame(infos: seq<PodInfo>, orders: seq<KeyOrder>, o: KeyOrder, n: nat)
    requires n <= |orders| && n <= |infos|
    ensures CycleMessages(infos, orders + [o], n) == CycleMessages(infos, orders, n)
    ensures CycleLogs(infos, orders + [o], n) == CycleLogs(infos, orders, n)
    ensures OrdersFit(infos, orders + [o], n) == OrdersFit(infos, orders, n)
  {
    if n > 0 {
      CycleFrame(infos, orders, o, n - 1);
      assert (orders + [o])[n - 1] == orders[n - 1];
    }
  }

  // ---------------------------------------------------------------------------
  // Properties of one cycle

  /** Every record comes from a container, outside the system namespace, of a
      listed pod whose metrics fetch succeeded; it carries that container's
      requirements and the usage of the whole pod. */
  lemma {:induction false} PodInfosSound(pods: seq<Pod>, fetch: Fetch, extract: ContainerMetrics -> UsageInfo, e: PodInfo)
    returns (i: nat, j: nat)
    requires e in PodInfos(pods, fetch, extract)
    ensures i < |pods| && j < |pods[i].containers|
    ensures pods[i].namespace != SystemNamespace && fetch(i, j).Ok?
    ensures e == Entry(pods[i], j, fetch(i, j).value, extract)
  {
    var n := |pods| - 1;
    var rest := PodInfos(pods[..n], fetch, extract);
    if e in rest {
      i, j := PodInfosSound(pods[..n], fetch, extract, e);
      assert pods[..n][i] == pods[i];
    } else {
      i := n;
      j := ContainerEntriesSound(pods[n], n, fetch, extract, |pods[n].containers|, e);
    }
  }

  lemma {:induction false} ContainerEntriesSound(pod: Pod, i: nat, fetch: Fetch, extract: ContainerMetrics -> UsageInfo, j: nat, e: PodInfo)
    returns (c: nat)
    requires j <= |pod.containers|
    requires e in ContainerEntries(pod, i, fetch, extract, j)
    ensures c < j && fetch(i, c).Ok? && e == Entry(pod, c, fetch(i, c).value, extract)
  {
    if e in ContainerEntries(pod, i, fetch, extract, j - 1) {
      c := ContainerEntriesSound(pod, i, fetch, extract, j - 1, e);
    } else {
      c := j - 1;
    }
  }

  /** Conversely, every container of a listed pod outside the system namespace
      whose metrics fetch succeeds yields its record. */
  lemma {:induction false} PodInfosComplete(pods: seq<Pod>, fetch: Fetch, extract: ContainerMetrics -> UsageInfo, i: nat, j: nat)
    requires i < |pods| && j < |pods[i].containers|
    requires pods[i].namespace != SystemNamespace && fetch(i, j).Ok?
    ensures Entry(pods[i], j, fetch(i, j).value, extract) in PodInfos(pods, fetch, extract)
  {
    var n := |pods| - 1;
    if i < n {
      assert pods[..n][i] == pods[i];
      PodInfosComplete(pods[..n], fetch, extract, i, j);
    } else {
      ContainerEntriesComplete(pods[n], n, fetch, extract, |pods[n].containers|, j);
    }
  }

  lemma {:induction false} ContainerEntriesComplete(pod: Pod, i: nat, fetch: Fetch, extract: ContainerMetrics -> UsageInfo, j: nat, c: nat)
    requires c < j <= |pod.containers| && fetch(i, c).Ok?
    ensures Entry(pod, c, fetch(i, c).value, extract) in ContainerEntries(pod, i, fetch, extract, j)
  {
    if c < j - 1 {
      ContainerEntriesComplete(pod, i, fetch, extract, j - 1, c);
    }
  }

  /** No record is ever built for a pod of the system namespace. */
  lemma NoSystemRecords(pods: seq<Pod>, fetch: Fetch, extract: ContainerMetrics -> UsageInfo)
    ensures forall e | e in PodInfos(pods, fetch, extract) :: e.namespace != SystemNamespace
  {
    forall e | e in PodInfos(pods, fetch, extract) ensures e.namespace != SystemNamespace {
      var i, j := PodInfosSound(pods, fetch, extract, e);
    }
  }

  /** Each inspected container is either recorded or counted as a failed fetch:
      none is recorded with an empty usage list in place of its metrics. */
  lemma {:induction false} RecordedOrFailed(pods: seq<Pod>, fetch: Fetch, extract: ContainerMetrics -> UsageInfo)
    ensures |PodInfos(pods, fetch, extract)| + FetchFailures(pods, fetch) == InspectedContainers(pods)
  {
    if pods != [] {
      var n := |pods| - 1;
      RecordedOrFailed(pods[..n], fetch, extract);
      if pods[n].namespace != SystemNamespace {
        ContainersRecordedOrFailed(pods[n], n, fetch, extract, |pods[n].containers|);
      }
    }
  }

  lemma {:induction false} ContainersRecordedOrFailed(pod: Pod, i: nat, fetch: Fetch, extract: ContainerMetrics -> UsageInfo, j: nat)
    requires j <= |pod.containers|
    ensures |ContainerEntries(pod, i, fetch, extract, j)| + ContainerFailures(pod, i, fetch, j) == j
  {
    if j > 0 {
      ContainersRecordedOrFailed(pod, i, fetch, extract, j - 1);
    }
  }

  /** A pod outside the system namespace whose fetches all succeed yields one
      record per container, in container order, each carrying the pod's full
      usage list. */
  lemma {:induction false} HealthyPodRecords(pod: Pod, i: nat, fetch: Fetch, extract: ContainerMetrics -> UsageInfo, j: nat)
    requires j <= |pod.containers|
    requires forall c | 0 <= c < j :: fetch(i, c).Ok?
    ensures var r := ContainerEntries(pod, i, fetch, extract, j);
            |r| == j &&
            forall c | 0 <= c < j :: r[c] == PodInfo(pod.name, pod.namespace, pod.containers[c].resources,
                                                     UsageList(fetch(i, c).value, extract))
  {
    if j > 0 {
      HealthyPodRecords(pod, i, fetch, extract, j - 1);
    }
  }

  /** Container `p.1` of the `p.0`-th listed pod is where record `e` comes from:
      the pod lies outside the system namespace, the container's metrics fetch
      succeeded, and `e` is built from that container and those metrics. */
  ghost predicate Source(pods: seq<Pod>, fetch: Fetch, extract: ContainerMetrics -> UsageInfo, p: (nat, nat), e: PodInfo) {
    p.0 < |pods| && p.1 < |pods[p.0].containers| &&
    pods[p.0].namespace != SystemNamespace && fetch(p.0, p.1).Ok? &&
    e == Entry(pods[p.0], p.1, fetch(p.0, p.1).value, extract)
  }

  /** Pod-then-container order on (pod index, container index) pairs. */
  predicate Before(p: (nat, nat), q: (nat, nat)) {
    p.0 < q.0 || (p.0 == q.0 && p.1 < q.1)
  }

  /** The records follow pod order and, within a pod, container order: each
      record has its source, and the sources of earlier records come earlier. */
  lemma {:induction false} PodInfosOrdered(pods: seq<Pod>, fetch: Fetch, extract: ContainerMetrics -> UsageInfo)
    returns (sources: seq<(nat, nat)>)
    ensures |sources| == |PodInfos(pods, fetch, extract)|
    ensures forall a | 0 <= a < |sources| :: Source(pods, fetch, extract, sources[a], PodInfos(pods, fetch, extract)[a])
    ensures forall a, b | 0 <= a < b < |sources| :: Before(sources[a], sources[b])
  {
    if pods == [] {
      return [];
    }
    var n := |pods| - 1;
    var earlier := PodInfos(pods[..n], fetch, extract);
    var rest := PodInfosOrdered(pods[..n], fetch, extract);
    forall a | 0 <= a < |rest| ensures rest[a].0 < n && Source(pods, fetch, extract, rest[a], earlier[a]) {
      PrefixSource(pods, n, fetch, extract, rest[a], earlier[a]);
    }
    if pods[n].namespace == SystemNamespace {
      assert PodInfos(pods, fetch, extract) == earlier + [];
      sources := rest;
    } else {
      var own := ContainerEntries(pods[n], n, fetch, extract, |pods[n].containers|);
      assert PodInfos(pods, fetch, extract) == earlier + own;
      var last := LastPodSources(pods, fetch, extract);
      sources := rest + last;
      SourcesConcat(pods, fetch, extract, n, rest, last, earlier, own);
    }
  }

  /** A source within the first `n` pods is a source within the whole listing. */
  lemma PrefixSource(pods: seq<Pod>, n: nat, fetch: Fetch, extract: ContainerMetrics -> UsageInfo, p: (nat, nat), e: PodInfo)
    requires n <= |pods|
    requires Source(pods[..n], fetch, extract, p, e)
    ensures p.0 < n && Source(pods, fetch, extract, p, e)
  {
    assert pods[..n][p.0] == pods[p.0];
  }

  /** The records of the last listed pod, outside the system namespace, come
      from that pod in container order. */
  lemma LastPodSources(pods: seq<Pod>, fetch: Fetch, extract: ContainerMetrics -> UsageInfo)
    returns (sources: seq<(nat, nat)>)
    requires pods != [] && pods[|pods| - 1].namespace != SystemNamespace
    ensures var n := |pods| - 1; var own := ContainerEntries(pods[n], n, fetch, extract, |pods[n].containers|);
      |sources| == |own| &&
      (forall a | 0 <= a < |sources| :: sources[a].0 == n && Source(pods, fetch, extract, sources[a], own[a])) &&
      (forall a, b | 0 <= a < b < |sources| :: Before(sources[a], sources[b]))
  {
    var n := |pods| - 1;
    var cs := EntriesOrdered(pods[n], n, fetch, extract, |pods[n].containers|);
    sources := seq(|cs|, c requires 0 <= c < |cs| => (n, cs[c]));
  }

  /** Joining the sources of the first pods to those of a later pod `n` keeps
      each record's source and the order. */
  lemma SourcesConcat(pods: seq<Pod>, fetch: Fetch, extract: ContainerMetrics -> UsageInfo, n: nat,
                      xs: seq<(nat, nat)>, ys: seq<(nat, nat)>, us: seq<PodInfo>, vs: seq<PodInfo>)
    requires |xs| == |us| && |ys| == |vs|
    requires forall a | 0 <= a < |xs| :: xs[a].0 < n && Source(pods, fetch, extract, xs[a], us[a])
    requires forall a | 0 <= a < |ys| :: ys[a].0 == n && Source(pods, fetch, extract, ys[a], vs[a])
    requires forall a, b | 0 <= a < b < |xs| :: Before(xs[a], xs[b])
    requires forall a, b | 0 <= a < b < |ys| :: Before(ys[a], ys[b])
    ensures forall a | 0 <= a < |xs + ys| :: Source(pods, fetch, extract, (xs + ys)[a], (us + vs)[a])
    ensures forall a, b | 0 <= a < b < |xs + ys| :: Before((xs + ys)[a], (xs + ys)[b])
  {
    forall a | 0 <= a < |xs + ys| ensures Source(pods, fetch, extract, (xs + ys)[a], (us + vs)[a]) {
      if a >= |xs| {
        assert (xs + ys)[a] == ys[a - |xs|] && (us + vs)[a] == vs[a - |xs|];
      }
    }
  }

  /** Within one pod, the records follow container order. */
  lemma {:induction false} EntriesOrdered(pod: Pod, i: nat, fetch: Fetch, extract: ContainerMetrics -> UsageInfo, j: nat)
    returns (cs: seq<nat>)
    requires j <= |pod.containers|
    ensures |cs| == |ContainerEntries(pod, i, fetch, extract, j)|
    ensures forall a | 0 <= a < |cs| ::
              cs[a] < j && fetch(i, cs[a]).Ok? &&
              ContainerEntries(pod, i, fetch, extract, j)[a] == Entry(pod, cs[a], fetch(i, cs[a]).value, extract)
    ensures forall a, b | 0 <= a < b < |cs| :: cs[a] < cs[b]
  {
    if j == 0 {
      return [];
    }
    var rest := EntriesOrdered(pod, i, fetch, extract, j - 1);
    var earlier := ContainerEntries(pod, i, fetch, extract, j - 1);
    match fetch(i, j - 1)
    case Failed =>
      assert ContainerEntries(pod, i, fetch, extract, j) == earlier + [];
      cs := rest;
    case Ok(metrics) =>
      assert ContainerEntries(pod, i, fetch, extract, j) == earlier + [Entry(pod, j - 1, metrics, extract)];
      cs := rest + [j - 1];
  }

  /** With Slack disabled, the buffers logged in one cycle, read in order, hold
      every message the cycle produced. */
  lemma {:induction false} LogsHoldCycle(infos: seq<PodInfo>, orders: seq<KeyOrder>, n: nat)
    requires n <= |infos| && n <= |orders|
    ensures Flatten(CycleLogs(infos, orders, n)) == CycleMessages(infos, orders, n)
  {
    if n > 0 {
      var e := Evaluate(infos[n - 1], orders[n - 1].limitKeys, orders[n - 1].requestKeys);
      LogsHoldCycle(infos, orders, n - 1);
      LogStep(CycleLogs(infos, orders, n - 1), CycleMessages(infos, orders, n - 1), e);
    }
  }

  /** Logging one more buffer, when it is non-empty, appends its messages. */
  lemma LogStep(logs: seq<seq<Message>>, msgs: seq<Message>, e: seq<Message>)
    requires Flatten(logs) == msgs
    ensures Flatten(logs + if e != [] then [e] else []) == msgs + e
  {
    if e != [] {
      FlattenSnoc(logs, e);
    } else {
      assert logs + [] == logs;
      assert msgs + e == msgs;
    }
  }

  /** A record that draws no message is not logged: every logged buffer is non-empty. */
  lemma {:induction false} LogsNonEmpty(infos: seq<PodInfo>, orders: seq<KeyOrder>, n: nat)
    requires n <= |infos| && n <= |orders|
    ensures forall l | l in CycleLogs(infos, orders, n) :: l != []
  {
    if n > 0 {
      LogsNonEmpty(infos, orders, n - 1);
    }
  }

  lemma FlattenSnoc(buffers: seq<seq<Message>>, e: seq<Message>)
    ensures Flatten(buffers + [e]) == Flatten(buffers) + e
  {
    assert (buffers + [e])[..|buffers|] == buffers;
  }
}

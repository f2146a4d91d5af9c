# pod-resources: a Dafny model of the resource compliance evaluator

pod-resources is a background monitor for Kubernetes. On every tick it lists the
pods of the cluster and skips those in `kube-system`. For each container of
the other pods it fetches the pod's metrics, once per container. When that
fetch succeeds it builds a record: the pod's name and namespace, the
container's declared `limits` and `requests`, and the pod's usage. A container
whose fetch fails is skipped. Each record is compared against three rules:

- a container's limit should not be below its request;
- a resource declared in only one of `limits` and `requests` should be declared
  in both;
- CPU and Memory should each be declared in both maps.

Each violation is reported as an ALERT or a WARNING message. When Slack is
configured, every message is posted. Otherwise the messages of one container
are buffered and logged together, once.

The model covers two implementations.

- **The main program** (`resources/resources.go`) has a three-pass evaluator:
  - the limits pass, then the requests pass, each a `range` over one map;
  - then a canonical pass that looks for CPU and Memory in each map.

  It also has `getPodInfo`, `extractUsageInfo` and the body of one tick of the
  main loop.
- **A second draft** (`resources/internal/resources/checks.go`). Its
  `CheckResourceRL` differs from the main evaluator in four ways:
  - it looks each key up in the same map it is ranging over;
  - it has no branch for a key declared in one map only;
  - it runs the CPU/Memory check inside the per-key loop;
  - both CPU/Memory wordings test the map being ranged.

  It collects its messages first and only then dispatches them. The draft
  also has `CheckResources`, `ExtractUsageInfo` and `GetPodInfo`.

Modules:

- `Types` (types.dfy): the records of `types.go`, the message templates, and
  the unspecified order of a Go map `range`.
  - `Enumerates(keys, s)`: `keys` lists the set `s` once each.
  - `RangeOrder`: chooses such an order arbitrarily.
- `Sink` (sink.dfy): the `sendOrAppend` closure, a `Dispatcher` object with
  three fields.
  - `slackEnabled`, a constant, chooses between posting and buffering.
  - `sent` holds what was posted to Slack.
  - `messages` is the per-call buffer.
- `Evaluator` (evaluator.dfy): the three passes and `checkResources`.
  - Each method is proved against the function `Evaluate(info, limitKeys,
    requestKeys)`, which holds the messages dispatched when the two maps are
    ranged in those orders.
  - Lemmas about `Evaluate` state what every key draws, in every range order.
- `Poller` (poller.dfy): `getPodInfo`, `extractUsageInfo` and one tick.
  - The cluster's answers are inputs: the listing is an `Outcome`, and the
    metrics fetch is a function `Fetch` from (pod index, container index) to
    an `Outcome`.
- `Containers` (containers.dfy): the draft as written, proved against
  `DraftMessages`, with the lemmas that set it against `Evaluate`.

Quantities are integers in canonical milli-units, so `Quantity.Cmp` becomes
`<` and `>`. A resource name is a string wrapped in `ResourceName`.

Where the system's design description and its code disagree, the model follows the code:

- For `limits = {cpu: 100m}` and `requests = {cpu: 200m}`, the design expects one
  ALERT. The code raises two, because the requests pass also fires
  (`Evaluator.CpuLimitBelowRequestScenario`).
- The design says a container whose metrics fetch fails is still assessed, with
  an empty usage list. The code skips it (`Poller.RecordedOrFailed`).
- The design says a key present in only one map draws exactly one WARNING. For
  CPU and Memory it draws two, because the canonical pass adds its own
  (`Evaluator.LimitOnlyKey`, `Evaluator.RequestOnlyKey`).
- The design says that with Slack disabled a cycle's messages are surfaced as
  one log record per cycle. The code buffers per container and logs once for
  each container that drew a message (`Poller.LogsHoldCycle`).
- The design says two evaluations of the same container give byte-identical
  message sequences. The order follows Go's unspecified map range order, so only
  the multiset of messages is the same (`Evaluator.OrderIndependent`).

## Model

| member | source | states |
|---|---|---|
| Types.RangeOrder | resources/resources.go:131 | a `range` over a map visits every key exactly once, in some order |
| Types.EnumeratesDistinct | resources/resources.go:131 | a range order repeats no key and has as many entries as the map has keys |
| Types.EnumeratesMembers | resources/resources.go:131 | a range order visits exactly the keys of the map |
| Types.ToMiB | resources/resources.go:105 | Go's truncating `bytes / (1024*1024)`: for non-negative bytes, the largest whole number of MiB not above them, and symmetric for negative bytes |
| Sink.Dispatcher.constructor | resources/resources.go:112-119 | a fresh closure has sent nothing and has an empty buffer |
| Sink.Dispatcher.SendOrAppend | resources/resources.go:113-119 | with Slack enabled the message is posted and the buffer is unchanged; otherwise it is appended to the buffer and nothing is posted; only one route is ever used |
| Evaluator.CheckLimit | resources/resources.go:132-138 | one limits-pass iteration dispatches exactly the pass's verdict on that key |
| Evaluator.RangeLimits | resources/resources.go:131-139 | the limits loop dispatches the verdicts on the keys, in visiting order |
| Evaluator.CheckResourceLimits | resources/resources.go:130-140 | the limits pass dispatches `PassMessages(LimitsPass, ...)` for some range order of the limits map |
| Evaluator.CheckRequest | resources/resources.go:144-150 | one requests-pass iteration dispatches exactly the pass's verdict on that key |
| Evaluator.RangeRequests | resources/resources.go:143-151 | the requests loop dispatches the verdicts on the keys, in visiting order |
| Evaluator.CheckResourceRequests | resources/resources.go:142-152 | the requests pass dispatches `PassMessages(RequestsPass, ...)` for some range order of the requests map |
| Evaluator.CheckMissing | resources/resources.go:156-161 | for one type: a "no limit set" WARNING if the limits map lacks it, then a "no request set" WARNING if the requests map lacks it |
| Evaluator.CheckMissingResources | resources/resources.go:154-163 | the canonical pass dispatches the CPU warnings, then the Memory warnings |
| Evaluator.CheckResources | resources/resources.go:111-128 | with Slack enabled, everything `Evaluate` yields is posted and nothing is logged; otherwise nothing is posted, and the buffer is logged once, as one entry, exactly when it is non-empty |
| Evaluator.PassAbout | resources/resources.go:131-151 | in a pass over distinct keys, the messages about key k are the verdict on k if k is visited, and none otherwise |
| Evaluator.RangedPassAbout | resources/resources.go:131-151 | in any range order, a pass says exactly its verdict about each key |
| Evaluator.EvaluateAbout | resources/resources.go:121-163 | in any range order, the messages about key k are the limits verdict, the requests verdict, then (CPU and Memory only) the canonical warnings |
| Evaluator.MissingAbout | resources/resources.go:154-163 | the canonical pass speaks only about CPU and Memory, each with its own gaps |
| Evaluator.LimitBelowRequestAlertsTwice | resources/resources.go:130-152 | a key with limit < request draws exactly two ALERTs, one from each pass (not deduplicated), carrying the limit and the request |
| Evaluator.ConsistentKeySilent | resources/resources.go:131-152 | a key declared in both maps draws no message iff its limit is at least its request; with equal quantities it draws none |
| Evaluator.LimitOnlyKey | resources/resources.go:130-163 | a key with a limit and no request draws one "limit set but no request" WARNING carrying the limit, plus the canonical "no request set" WARNING for CPU or Memory |
| Evaluator.RequestOnlyKey | resources/resources.go:142-163 | a key with a request and no limit draws one "request set but no limit" WARNING carrying the request, plus the canonical "no limit set" WARNING for CPU or Memory |
| Evaluator.UndeclaredKey | resources/resources.go:154-163 | a key in neither map draws the two canonical WARNINGs if it is CPU or Memory, and nothing otherwise |
| Evaluator.AlertHasCause | resources/resources.go:130-152 | every dispatched ALERT concerns a key declared in both maps whose limit is below its request |
| Evaluator.AlertIffLimitBelowRequest | resources/resources.go:130-152 | some ALERT is dispatched iff some key has limit < request |
| Evaluator.NothingDeclaredFourWarnings | resources/resources.go:154-163 | with both maps empty: exactly four WARNINGs (CPU limit, CPU request, Memory limit, Memory request) and no ALERT |
| Evaluator.CpuLimitBelowRequestScenario | resources/resources.go:121-163 | limits = {cpu: 100m}, requests = {cpu: 200m} yields two CPU ALERTs, then the two Memory WARNINGs |
| Evaluator.PassBounded | resources/resources.go:131-151 | each range pass emits at most as many messages as its map has keys |
| Evaluator.CanonicalWarnings | resources/resources.go:154-163 | the canonical pass emits no ALERT, and one WARNING per (type, map) pair where the type is absent, so between 0 and 4 |
| Evaluator.MissingWordings | resources/resources.go:154-163 | a "no limit set" WARNING for k is dispatched iff k is CPU or Memory and the limits map lacks it; a "no request set" WARNING iff the requests map lacks it |
| Evaluator.PhasesOrdered | resources/resources.go:121-123 | limits-pass messages precede requests-pass messages, which precede canonical warnings |
| Evaluator.OrderIndependent | resources/resources.go:130-152 | any two range orders dispatch the same multiset of messages |
| Poller.Usage | resources/resources.go:102-106 | a usage entry keeps the container name and the milli-CPU, holds memory in whole MiB, and leaves ephemeral storage at zero |
| Poller.ExtractUsageInfo | resources/resources.go:99-109 | one usage entry per metrics container, in the same order |
| Poller.AppendContainers | resources/resources.go:80-94 | the container loop appends a record for every container whose fetch succeeds, and counts every one whose fetch fails |
| Poller.GetPodInfo | resources/resources.go:69-97 | a listing error returns an error and no records; otherwise the result is `PodInfos` and the failed fetches are counted |
| Poller.PodInfosSound | resources/resources.go:76-94 | every record comes from a container of a listed pod outside kube-system whose fetch succeeded, and carries that container's requirements and its pod's usage |
| Poller.PodInfosComplete | resources/resources.go:76-94 | every container of a pod outside kube-system whose fetch succeeds yields its record |
| Poller.NoSystemRecords | resources/resources.go:77-79 | no record belongs to the kube-system namespace |
| Poller.RecordedOrFailed | resources/resources.go:80-93 | records plus failed fetches equal the inspected containers, so a failed container is omitted, never recorded with an empty usage list |
| Poller.HealthyPodRecords | resources/resources.go:80-93 | a pod whose fetches all succeed yields one record per container, in order, each with the pod's full usage list |
| Poller.PodInfosOrdered | resources/resources.go:76-94 | each record is paired with the pod and container it comes from (pod outside kube-system, fetch succeeded, record built from them), and these pairs strictly increase in pod-then-container order |
| Poller.EntriesOrdered | resources/resources.go:80-93 | within one pod, each record comes from a container whose fetch succeeded, and the containers strictly increase in index |
| Poller.Tick | resources/resources.go:43-52 | a listing error skips the cycle: nothing is checked, posted or logged; otherwise every record is checked, in order |
| Poller.CheckAll | resources/resources.go:49-51 | the loop over the records posts or logs, record by record, what `checkResources` gives for each |
| Poller.CycleStep | resources/resources.go:49-51 | checking one more record appends its messages, and its buffer if non-empty |
| Poller.LogsHoldCycle | resources/resources.go:43-52 | with Slack disabled, the logged buffers read in order hold every message of the cycle |
| Poller.LogsNonEmpty | resources/resources.go:125-127 | no empty buffer is ever logged |
| Containers.DraftUsage | resources/internal/resources/checks.go:25-30 | a draft usage entry is the main program's, with the ephemeral storage in bytes |
| Containers.ExtractUsageInfo | resources/internal/resources/checks.go:22-33 | one usage entry per metrics container, in order: milli-CPU, memory in whole MiB, storage in bytes |
| Containers.AppendContainers | resources/internal/resources/checks.go:91-105 | as in the main program, with the draft's usage entries |
| Containers.GetPodInfo | resources/internal/resources/checks.go:80-108 | a listing error returns an error and no records; otherwise `PodInfos` with the draft's usage, so every `Poller` lemma on `PodInfos` (system pods skipped, failed fetches omitted, order kept) holds for it too |
| Containers.CollectKey | resources/internal/resources/checks.go:56-72 | one key's iteration appends its self-comparison and then the canonical block for the map being ranged |
| Containers.CollectKeys | resources/internal/resources/checks.go:55-73 | the per-key loop appends one block per key, in visiting order |
| Containers.CollectMap | resources/internal/resources/checks.go:55-73 | a map is ranged in some order, and its blocks are appended |
| Containers.Collect | resources/internal/resources/checks.go:53-74 | the collected slice holds the limits map's messages, then the requests map's |
| Containers.Replay | resources/internal/resources/checks.go:75-77 | each collected message is handed to `sendOrAppend` once, in collection order |
| Containers.CheckResourceRL | resources/internal/resources/checks.go:52-78 | the draft dispatches exactly `DraftMessages` for some range orders of the two maps |
| Containers.CheckResources | resources/internal/resources/checks.go:35-50 | with Slack enabled everything is posted and nothing logged; otherwise the buffer is logged once iff it is non-empty |
| Containers.CanonicalIsGaps | resources/internal/resources/checks.go:65-72 | the inner loop yields CPU's two wordings, then Memory's, each only when the ranged map lacks that type |
| Containers.KeyBlock | resources/internal/resources/checks.go:56-72 | every key of a map draws the same block: two WARNINGs per canonical type that map lacks, no ALERT |
| Containers.MapCount | resources/internal/resources/checks.go:55-73 | ranging a map collects `2 * Absent(m)` messages per visited key |
| Containers.MapNoAlerts | resources/internal/resources/checks.go:55-73 | ranging a map never collects an ALERT |
| Containers.MapTotal | resources/internal/resources/checks.go:54-73 | one map M contributes (number of keys of M) * 2 * (number of CPU and Memory absent from M) messages |
| Containers.DraftCount | resources/internal/resources/checks.go:54-73 | the draft dispatches the sum of that count over limits and requests |
| Containers.DraftNeverAlerts | resources/internal/resources/checks.go:56-62 | the draft never dispatches an ALERT |
| Containers.CompleteMapSilent | resources/internal/resources/checks.go:65-71 | a map declaring both CPU and Memory contributes nothing |
| Containers.UndeclaredDiverges | resources/internal/resources/checks.go:54-72 | with both maps empty the draft dispatches nothing, where the main evaluator dispatches four WARNINGs |
| Containers.LimitBelowRequestDiverges | resources/internal/resources/checks.go:56-62 | for limits = {cpu: 100m}, requests = {cpu: 200m}: no ALERT from the draft, two from the main evaluator |
| Containers.LimitOnlyDiverges | resources/internal/resources/checks.go:54-72 | limits = {cpu}, requests = {}: the draft collects exactly the missing Memory limit and request WARNINGs, while the main evaluator also flags the CPU limit without a request and the missing CPU request |
| Containers.MissingLimitMisreported | resources/internal/resources/checks.go:65-71 | for limits = {cpu, memory}, requests = {cpu}: the draft reports "no memory limit set" although one is declared; the main evaluator does not |

## Left out

- The ticker (`time.NewTicker`, resources/resources.go:40-43). Its timing and its dropped ticks are runtime scheduling. `Poller.Tick` models one cycle body.
- Client setup, `initialiseClients` and resources/internal/auth/auth.go. They are calls into the Kubernetes client library.
- The cluster's answers are inputs, not calls:
  - the pod listing is an `Outcome<seq<Pod>>`;
  - each metrics fetch is the value of a `Fetch` function at (pod index, container index).
  Both are fixed for the cycle. Logged fetch errors are counted, not formatted.
- `notifications.SlackEnabled()` is a boolean input.
- Slack delivery and its failures. `SendSlackNotification` is modelled as appending to `sent`.
- Log formatting (`utils.LogWithFields`), `Quantity.String()`, `%v` printing of usage, and the message text. Each template is a `Message` constructor carrying the same fields.
- Quantity parsing and `MilliValue`/`Value` rounding. Quantities are integers, and metrics arrive with CPU already in milli-units and memory and storage in bytes.
- int64 overflow of quantities and of the memory conversion. Integers are unbounded.
- resources/internal/resources/types.go documents `Memory` as bytes, but both programs store MiB. The model stores what the code computes.
- `UsageInfo` in types.go has no `EphemeralStorage` field, yet checks.go:29 sets one. The model adds the field. The main program leaves it at zero.
- Go's map iteration order is an arbitrary choice (`RangeOrder`), not a randomised one. Every lemma holds for every order.

## Findings

| source | as written | input that shows it | evidently intended | confidence | as-written member | corrected member |
|---|---|---|---|---|---|---|
| resources/internal/resources/checks.go:56-62 | the "request" quantity is looked up in the same map that is being ranged, so each quantity is compared with itself and neither ALERT can fire | limits = {cpu: 100m}, requests = {cpu: 200m} | compare a key's limit with its request, as resources/resources.go:130-152 does | not executed | Containers.LimitBelowRequestDiverges | Evaluator.AlertIffLimitBelowRequest |
| resources/internal/resources/checks.go:65-72 | the CPU/Memory check sits inside the per-key loop, so it is skipped for an empty map | limits = {}, requests = {} | check CPU and Memory once per container, whatever the maps hold, as resources/resources.go:154-163 does | not executed | Containers.UndeclaredDiverges | Evaluator.NothingDeclaredFourWarnings |
| resources/internal/resources/checks.go:66-71 | both the "limit" and the "request" wording test the map being ranged, so a missing request is reported as a missing limit | limits = {cpu, memory}, requests = {cpu} | test the limits map for the limit wording and the requests map for the request wording | not executed | Containers.MissingLimitMisreported | Evaluator.MissingWordings |

/** The three-pass evaluator of resources/resources.go: the limits pass, the
    requests pass and the canonical CPU/Memory presence pass, run in that order
    for one container and routed through the container's own dispatcher. */
module Evaluator {
  import opened Types
  import opened Sink

  /** The two passes that range over a declared map. */
  datatype Pass = LimitsPass | RequestsPass

  /** What one pass says about one key of the map it ranges over: at most one
      message, and it concerns that key. */
  function Verdict(p: Pass, info: PodInfo, k: ResourceName): (r: seq<Message>)
    ensures |r| <= 1
    ensures r != [] ==> r[0].resource == k
  {
    var limits, requests := info.resources.limits, info.resources.requests;
    match p
    case LimitsPass =>
      if k !in limits then []
      else if k in requests then
        if limits[k] < requests[k] then [ExceedsRequestLimit(info.name, info.namespace, k, limits[k])] else []
      else [LimitWithoutRequest(info.name, info.namespace, k, limits[k])]
    case RequestsPass =>
      if k !in requests then []
      else if k in limits then
        if requests[k] > limits[k] then [ExceedsLimit(info.name, info.namespace, k, requests[k])] else []
      else [RequestWithoutLimit(info.name, info.namespace, k, requests[k])]
  }

  /** The messages of one pass that visits the keys in the order `keys`. */
  function PassMessages(p: Pass, info: PodInfo, keys: seq<ResourceName>): (r: seq<Message>)
    ensures |r| <= |keys|
  {
    if keys == [] then []
    else PassMessages(p, info, keys[..|keys| - 1]) + Verdict(p, info, keys[|keys| - 1])
  }

  /** The canonical pass's warnings for one resource type. */
  function Gaps(info: PodInfo, name: ResourceName): seq<Message> {
    (if name !in info.resources.limits then [NoLimitSet(info.name, info.namespace, name, info.usage)] else []) +
    (if name !in info.resources.requests then [NoRequestSet(info.name, info.namespace, name, info.usage)] else [])
  }

  /** The canonical pass over the resource types `names`, in order. */
  function MissingMessages(info: PodInfo, names: seq<ResourceName>): seq<Message> {
    if names == [] then []
    else MissingMessages(info, names[..|names| - 1]) + Gaps(info, names[|names| - 1])
  }

  /** Everything `checkResources` dispatches for one container, when the limits
      map is ranged in the order `limitKeys` and the requests map in `requestKeys`. */
  function Evaluate(info: PodInfo, limitKeys: seq<ResourceName>, requestKeys: seq<ResourceName>): seq<Message> {
    PassMessages(LimitsPass, info, limitKeys) + PassMessages(RequestsPass, info, requestKeys) +
    MissingMessages(info, Canonical)
  }

  /** Which pass produces a message of this template. */
  function Phase(m: Message): nat {
    match m
    case ExceedsRequestLimit(_, _, _, _) => 0
    case LimitWithoutRequest(_, _, _, _) => 0
    case ExceedsLimit(_, _, _, _) => 1
    case RequestWithoutLimit(_, _, _, _) => 1
    case NoLimitSet(_, _, _, _) => 2
    case NoRequestSet(_, _, _, _) => 2
  }

  /** One more iteration of a pass's range loop appends its verdict on the next key. */
  lemma PassPrefix(p: Pass, info: PodInfo, keys: seq<ResourceName>, i: nat)
    requires i < |keys|
    ensures PassMessages(p, info, keys[..i + 1]) == PassMessages(p, info, keys[..i]) + Verdict(p, info, keys[i])
  {
    assert keys[..i + 1][..i] == keys[..i];
  }

  /** One more iteration of the canonical loop appends the gaps of the next type. */
  lemma MissingPrefix(info: PodInfo, names: seq<ResourceName>, i: nat)
    requires i < |names|
    ensures MissingMessages(info, names[..i + 1]) == MissingMessages(info, names[..i]) + Gaps(info, names[i])
  {
    assert names[..i + 1][..i] == names[..i];
  }

  /** A range loop that has visited every key has emitted the whole pass. */
  lemma PassAll(p: Pass, info: PodInfo, keys: seq<ResourceName>)
    ensures PassMessages(p, info, keys[..|keys|]) == PassMessages(p, info, keys)
  {
    assert keys[..|keys|] == keys;
  }

  lemma MissingAll(info: PodInfo, names: seq<ResourceName>)
    ensures MissingMessages(info, names[..|names|]) == MissingMessages(info, names)
  {
    assert names[..|names|] == names;
  }

  /** The canonical pass as the two per-type groups of warnings, CPU first. */
  lemma MissingIsGaps(info: PodInfo)
    ensures MissingMessages(info, Canonical) == Gaps(info, Cpu) + Gaps(info, Memory)
  {
    assert Canonical[..1] == [Cpu] && [Cpu][..0] == [];
    assert MissingMessages(info, [Cpu]) == Gaps(info, Cpu);
  }

  // ---------------------------------------------------------------------------
  // The methods, as the Go code runs them

  /** One iteration of the limits pass's range loop, for the key `resourceName`. */
  method CheckLimit(info: PodInfo, resourceName: ResourceName, d: Dispatcher)
    requires d.Valid()
    requires resourceName in info.resources.limits
    modifies d
    ensures d.Valid()
    ensures d.Emitted() == old(d.Emitted()) + Verdict(LimitsPass, info, resourceName)
  {
    var resourceQuantity := info.resources.limits[resourceName];
    if resourceName in info.resources.requests {
      var requestQuantity := info.resources.requests[resourceName];
      if resourceQuantity < requestQuantity {
        d.SendOrAppend(ExceedsRequestLimit(info.name, info.namespace, resourceName, resourceQuantity));
      }
    } else {
      d.SendOrAppend(LimitWithoutRequest(info.name, info.namespace, resourceName, resourceQuantity));
    }
  }

  /** One iteration of the requests pass's range loop, for the key `resourceName`. */
  method CheckRequest(info: PodInfo, resourceName: ResourceName, d: Dispatcher)
    requires d.Valid()
    requires resourceName in info.resources.requests
    modifies d
    ensures d.Valid()
    ensures d.Emitted() == old(d.Emitted()) + Verdict(RequestsPass, info, resourceName)
  {
    var resourceQuantity := info.resources.requests[resourceName];
    if resourceName in info.resources.limits {
      var limitQuantity := info.resources.limits[resourceName];
      if resourceQuantity > limitQuantity {
        d.SendOrAppend(ExceedsLimit(info.name, info.namespace, resourceName, resourceQuantity));
      }
    } else {
      d.SendOrAppend(RequestWithoutLimit(info.name, info.namespace, resourceName, resourceQuantity));
    }
  }

  /** The limits pass's range loop, visiting the keys in the order `keys`. */
  method RangeLimits(info: PodInfo, keys: seq<ResourceName>, d: Dispatcher)
    requires d.Valid()
    requires forall i | 0 <= i < |keys| :: keys[i] in info.resources.limits
    modifies d
    ensures d.Valid()
    ensures d.Emitted() == old(d.Emitted()) + PassMessages(LimitsPass, info, keys)
  {
    ghost var emitted: seq<Message> := [];
    for i := 0 to |keys|
      invariant d.Valid()
      invariant d.Emitted() == old(d.Emitted()) + emitted
      invariant emitted == PassMessages(LimitsPass, info, keys[..i])
    {
      var resourceName := keys[i];
      CheckLimit(info, resourceName, d);
      PassPrefix(LimitsPass, info, keys, i);
      emitted := emitted + Verdict(LimitsPass, info, resourceName);
    }
    PassAll(LimitsPass, info, keys);
  }

  /** The requests pass's range loop, visiting the keys in the order `keys`. */
  method RangeRequests(info: PodInfo, keys: seq<ResourceName>, d: Dispatcher)
    requires d.Valid()
    requires forall i | 0 <= i < |keys| :: keys[i] in info.resources.requests
    modifies d
    ensures d.Valid()
    ensures d.Emitted() == old(d.Emitted()) + PassMessages(RequestsPass, info, keys)
  {
    ghost var emitted: seq<Message> := [];
    for i := 0 to |keys|
      invariant d.Valid()
      invariant d.Emitted() == old(d.Emitted()) + emitted
      invariant emitted == PassMessages(RequestsPass, info, keys[..i])
    {
      var resourceName := keys[i];
      CheckRequest(info, resourceName, d);
      PassPrefix(RequestsPass, info, keys, i);
      emitted := emitted + Verdict(RequestsPass, info, resourceName);
    }
    PassAll(RequestsPass, info, keys);
  }

  /** `checkResourceLimits`: range over the limits map in an unspecified order. */
  method CheckResourceLimits(info: PodInfo, d: Dispatcher) returns (keys: seq<ResourceName>)
    requires d.Valid()
    modifies d
    ensures d.Valid()
    ensures Enumerates(keys, info.resources.limits.Keys)
    ensures d.Emitted() == old(d.Emitted()) + PassMessages(LimitsPass, info, keys)
  {
    keys := RangeOrder(info.resources.limits.Keys);
    EnumeratesMembers(keys, info.resources.limits.Keys);
    RangeLimits(info, keys, d);
  }

  /** `checkResourceRequests`: range over the requests map in an unspecified order. */
  method CheckResourceRequests(info: PodInfo, d: Dispatcher) returns (keys: seq<ResourceName>)
    requires d.Valid()
    modifies d
    ensures d.Valid()
    ensures Enumerates(keys, info.resources.requests.Keys)
    ensures d.Emitted() == old(d.Emitted()) + PassMessages(RequestsPass, info, keys)
  {
    keys := RangeOrder(info.resources.requests.Keys);
    EnumeratesMembers(keys, info.resources.requests.Keys);
    RangeRequests(info, keys, d);
  }

  /** One iteration of the canonical loop, for the resource type `resourceName`. */
  method CheckMissing(info: PodInfo, resourceName: ResourceName, d: Dispatcher)
    requires d.Valid()
    modifies d
    ensures d.Valid()
    ensures d.Emitted() == old(d.Emitted()) + Gaps(info, resourceName)
  {
    if resourceName !in info.resources.limits {
      d.SendOrAppend(NoLimitSet(info.name, info.namespace, resourceName, info.usage));
    }
    if resourceName !in info.resources.requests {
      d.SendOrAppend(NoRequestSet(info.name, info.namespace, resourceName, info.usage));
    }
  }

  /** `checkMissingResources`: the canonical pass over CPU then Memory. */
  method CheckMissingResources(info: PodInfo, d: Dispatcher)
    requires d.Valid()
    modifies d
    ensures d.Valid()
    ensures d.Emitted() == old(d.Emitted()) + MissingMessages(info, Canonical)
  {
    ghost var emitted: seq<Message> := [];
    for i := 0 to |Canonical|
      invariant d.Valid()
      invariant d.Emitted() == old(d.Emitted()) + emitted
      invariant emitted == MissingMessages(info, Canonical[..i])
    {
      var resourceName := Canonical[i];
      CheckMissing(info, resourceName, d);
      MissingPrefix(info, Canonical, i);
      emitted := emitted + Gaps(info, resourceName);
    }
    MissingAll(info, Canonical);
  }

  /** `checkResources`: with Slack enabled every message is posted and nothing is
      logged; otherwise the messages are buffered and, when there is at least
      one, logged together exactly once. */
  method CheckResources(info: PodInfo, slackEnabled: bool)
    returns (sent: seq<Message>, logged: seq<seq<Message>>,
             limitKeys: seq<ResourceName>, requestKeys: seq<ResourceName>)
    ensures Enumerates(limitKeys, info.resources.limits.Keys)
    ensures Enumerates(requestKeys, info.resources.requests.Keys)
    ensures sent == if slackEnabled then Evaluate(info, limitKeys, requestKeys) else []
    ensures logged == if !slackEnabled && Evaluate(info, limitKeys, requestKeys) != []
                      then [Evaluate(info, limitKeys, requestKeys)] else []
  {
    var d := new Dispatcher(slackEnabled);
    limitKeys := CheckResourceLimits(info, d);
    assert [] + PassMessages(LimitsPass, info, limitKeys) == PassMessages(LimitsPass, info, limitKeys);
    requestKeys := CheckResourceRequests(info, d);
    CheckMissingResources(info, d);
    sent := d.sent;
    if |d.messages| > 0 && !d.slackEnabled {
      logged := [d.messages];
    } else {
      logged := [];
    }
  }

  // ---------------------------------------------------------------------------
  // Properties of the passes

  /** The messages a pass emits about key `k` are exactly its verdict on `k`, in
      whatever order the map is ranged. */
  lemma {:induction false} PassAbout(p: Pass, info: PodInfo, keys: seq<ResourceName>, k: ResourceName)
    requires Distinct(keys)
    ensures About(PassMessages(p, info, keys), k) == if k in keys then Verdict(p, info, k) else []
  {
    if keys != [] {
      var n := |keys| - 1;
      var rest, last := keys[..n], keys[n];
      var earlier, v := PassMessages(p, info, rest), Verdict(p, info, last);
      assert PassMessages(p, info, keys) == earlier + v;
      DistinctInit(keys);
      PassAbout(p, info, rest, k);
      AboutSnoc(earlier, v, last, k);
      InInit(keys, k);
    }
  }

  /** Appending at most one message about `name` adds it to the messages about
      `name` and to no others. */
  lemma AboutSnoc(earlier: seq<Message>, v: seq<Message>, name: ResourceName, k: ResourceName)
    requires |v| <= 1 && (v != [] ==> v[0].resource == name)
    ensures About(earlier + v, k) == About(earlier, k) + if name == k then v else []
  {
    AboutAppend(earlier, v, k);
    if v != [] {
      assert v == [v[0]] && v[1..] == [];
    }
  }

  /** Whatever order a pass ranges its map in, what it says about `k` is its
      verdict on `k` (nothing when `k` is not a key of that map). */
  lemma RangedPassAbout(p: Pass, info: PodInfo, keys: seq<ResourceName>, k: ResourceName)
    requires p == LimitsPass ==> Enumerates(keys, info.resources.limits.Keys)
    requires p == RequestsPass ==> Enumerates(keys, info.resources.requests.Keys)
    ensures About(PassMessages(p, info, keys), k) == Verdict(p, info, k)
  {
    var m := if p == LimitsPass then info.resources.limits else info.resources.requests;
    EnumeratesDistinct(keys, m.Keys);
    EnumeratesMembers(keys, m.Keys);
    PassAbout(p, info, keys, k);
  }

  /** The messages `checkResources` dispatches about key `k`, whatever order the
      two maps are ranged in. */
  lemma EvaluateAbout(info: PodInfo, limitKeys: seq<ResourceName>, requestKeys: seq<ResourceName>, k: ResourceName)
    requires Enumerates(limitKeys, info.resources.limits.Keys)
    requires Enumerates(requestKeys, info.resources.requests.Keys)
    ensures About(Evaluate(info, limitKeys, requestKeys), k) ==
            Verdict(LimitsPass, info, k) + Verdict(RequestsPass, info, k) +
            (if k == Cpu || k == Memory then Gaps(info, k) else [])
  {
    var lp := PassMessages(LimitsPass, info, limitKeys);
    var rp := PassMessages(RequestsPass, info, requestKeys);
    var mp := MissingMessages(info, Canonical);
    assert Evaluate(info, limitKeys, requestKeys) == lp + rp + mp;
    AboutAppend(lp + rp, mp, k);
    AboutAppend(lp, rp, k);
    RangedPassAbout(LimitsPass, info, limitKeys, k);
    RangedPassAbout(RequestsPass, info, requestKeys, k);
    MissingAbout(info, k);
  }

  lemma MissingAbout(info: PodInfo, k: ResourceName)
    ensures About(MissingMessages(info, Canonical), k) == if k == Cpu || k == Memory then Gaps(info, k) else []
  {
    var cpu, mem := Gaps(info, Cpu), Gaps(info, Memory);
    MissingIsGaps(info);
    AboutAppend(cpu, mem, k);
    GapsAbout(info, Cpu, k);
    GapsAbout(info, Memory, k);
  }

  lemma GapsAbout(info: PodInfo, name: ResourceName, k: ResourceName)
    ensures About(Gaps(info, name), k) == if name == k then Gaps(info, name) else []
  {
    var a := if name !in info.resources.limits then [NoLimitSet(info.name, info.namespace, name, info.usage)] else [];
    var b := if name !in info.resources.requests then [NoRequestSet(info.name, info.namespace, name, info.usage)] else [];
    AboutAppend(a, b, k);
  }

  /** A key declared in both maps with its limit below its request draws two
      ALERTs, one from each pass, not deduplicated: the first echoes the limit,
      the second the request. */
  lemma LimitBelowRequestAlertsTwice(info: PodInfo, limitKeys: seq<ResourceName>, requestKeys: seq<ResourceName>, k: ResourceName)
    requires Enumerates(limitKeys, info.resources.limits.Keys)
    requires Enumerates(requestKeys, info.resources.requests.Keys)
    requires k in info.resources.limits && k in info.resources.requests
    requires info.resources.limits[k] < info.resources.requests[k]
    ensures About(Evaluate(info, limitKeys, requestKeys), k) ==
            [ExceedsRequestLimit(info.name, info.namespace, k, info.resources.limits[k]),
             ExceedsLimit(info.name, info.namespace, k, info.resources.requests[k])]
  {
    EvaluateAbout(info, limitKeys, requestKeys, k);
  }

  /** A key declared in both maps draws no message at all exactly when its
      limit is at least its request (in particular when the two are equal). */
  lemma ConsistentKeySilent(info: PodInfo, limitKeys: seq<ResourceName>, requestKeys: seq<ResourceName>, k: ResourceName)
    requires Enumerates(limitKeys, info.resources.limits.Keys)
    requires Enumerates(requestKeys, info.resources.requests.Keys)
    requires k in info.resources.limits && k in info.resources.requests
    ensures About(Evaluate(info, limitKeys, requestKeys), k) == [] <==>
            info.resources.limits[k] >= info.resources.requests[k]
  {
    EvaluateAbout(info, limitKeys, requestKeys, k);
  }

  /** A key with a limit and no request draws one "limit set but no request
      defined" WARNING echoing the limit, plus the canonical missing-request
      warning when the key is CPU or Memory. */
  lemma LimitOnlyKey(info: PodInfo, limitKeys: seq<ResourceName>, requestKeys: seq<ResourceName>, k: ResourceName)
    requires Enumerates(limitKeys, info.resources.limits.Keys)
    requires Enumerates(requestKeys, info.resources.requests.Keys)
    requires k in info.resources.limits && k !in info.resources.requests
    ensures About(Evaluate(info, limitKeys, requestKeys), k) ==
            [LimitWithoutRequest(info.name, info.namespace, k, info.resources.limits[k])] +
            (if k == Cpu || k == Memory then [NoRequestSet(info.name, info.namespace, k, info.usage)] else [])
  {
    EvaluateAbout(info, limitKeys, requestKeys, k);
  }

  /** A key with a request and no limit draws one "request set but no limit
      defined" WARNING echoing the request, plus the canonical missing-limit
      warning when the key is CPU or Memory. */
  lemma RequestOnlyKey(info: PodInfo, limitKeys: seq<ResourceName>, requestKeys: seq<ResourceName>, k: ResourceName)
    requires Enumerates(limitKeys, info.resources.limits.Keys)
    requires Enumerates(requestKeys, info.resources.requests.Keys)
    requires k !in info.resources.limits && k in info.resources.requests
    ensures About(Evaluate(info, limitKeys, requestKeys), k) ==
            [RequestWithoutLimit(info.name, info.namespace, k, info.resources.requests[k])] +
            (if k == Cpu || k == Memory then [NoLimitSet(info.name, info.namespace, k, info.usage)] else [])
  {
    EvaluateAbout(info, limitKeys, requestKeys, k);
  }

  /** A key declared in neither map draws the two canonical warnings when it is
      CPU or Memory, and nothing otherwise. */
  lemma UndeclaredKey(info: PodInfo, limitKeys: seq<ResourceName>, requestKeys: seq<ResourceName>, k: ResourceName)
    requires Enumerates(limitKeys, info.resources.limits.Keys)
    requires Enumerates(requestKeys, info.resources.requests.Keys)
    requires k !in info.resources.limits && k !in info.resources.requests
    ensures About(Evaluate(info, limitKeys, requestKeys), k) ==
            if k == Cpu || k == Memory
            then [NoLimitSet(info.name, info.namespace, k, info.usage), NoRequestSet(info.name, info.namespace, k, info.usage)]
            else []
  {
    EvaluateAbout(info, limitKeys, requestKeys, k);
  }

  /** Every ALERT dispatched concerns a key whose limit is below its request. */
  lemma AlertHasCause(info: PodInfo, limitKeys: seq<ResourceName>, requestKeys: seq<ResourceName>, m: Message)
    requires Enumerates(limitKeys, info.resources.limits.Keys)
    requires Enumerates(requestKeys, info.resources.requests.Keys)
    requires m in Evaluate(info, limitKeys, requestKeys) && m.IsAlert()
    ensures m.resource in info.resources.limits && m.resource in info.resources.requests
    ensures info.resources.limits[m.resource] < info.resources.requests[m.resource]
  {
    EvaluateAbout(info, limitKeys, requestKeys, m.resource);
    AboutHas(Evaluate(info, limitKeys, requestKeys), m);
    VerdictAlert(info, m.resource, m);
  }

  /** Of the messages about one key, only the two verdicts can be ALERTs, and
      they are only when the key's limit is below its request. */
  lemma VerdictAlert(info: PodInfo, k: ResourceName, m: Message)
    requires m in Verdict(LimitsPass, info, k) + Verdict(RequestsPass, info, k) +
                  (if k == Cpu || k == Memory then Gaps(info, k) else [])
    requires m.IsAlert()
    ensures k in info.resources.limits && k in info.resources.requests
    ensures info.resources.limits[k] < info.resources.requests[k]
  {
  }

  /** Some ALERT is dispatched exactly when some key has a limit below its request. */
  lemma AlertIffLimitBelowRequest(info: PodInfo, limitKeys: seq<ResourceName>, requestKeys: seq<ResourceName>)
    requires Enumerates(limitKeys, info.resources.limits.Keys)
    requires Enumerates(requestKeys, info.resources.requests.Keys)
    ensures Alerts(Evaluate(info, limitKeys, requestKeys)) > 0 <==>
            exists k :: k in info.resources.limits && k in info.resources.requests &&
                        info.resources.limits[k] < info.resources.requests[k]
  {
    var e := Evaluate(info, limitKeys, requestKeys);
    var limits, requests := info.resources.limits, info.resources.requests;
    if Alerts(e) > 0 {
      var m :| m in e && m.IsAlert();
      AlertHasCause(info, limitKeys, requestKeys, m);
    }
    if exists k :: k in limits && k in requests && limits[k] < requests[k] {
      var k :| k in limits && k in requests && limits[k] < requests[k];
      LimitBelowRequestAlertsTwice(info, limitKeys, requestKeys, k);
      AboutWithin(e, k);
      assert ExceedsRequestLimit(info.name, info.namespace, k, limits[k]) in About(e, k);
    }
  }

  /** With nothing declared the evaluator emits exactly the four canonical
      WARNINGs, CPU first, and no ALERT. */
  lemma NothingDeclaredFourWarnings(info: PodInfo, limitKeys: seq<ResourceName>, requestKeys: seq<ResourceName>)
    requires info.resources.limits == map[] && info.resources.requests == map[]
    requires Enumerates(limitKeys, info.resources.limits.Keys)
    requires Enumerates(requestKeys, info.resources.requests.Keys)
    ensures Evaluate(info, limitKeys, requestKeys) ==
            [NoLimitSet(info.name, info.namespace, Cpu, info.usage), NoRequestSet(info.name, info.namespace, Cpu, info.usage),
             NoLimitSet(info.name, info.namespace, Memory, info.usage), NoRequestSet(info.name, info.namespace, Memory, info.usage)]
    ensures Alerts(Evaluate(info, limitKeys, requestKeys)) == 0
  {
    MissingIsGaps(info);
  }

  /** limits = {cpu: 100m}, requests = {cpu: 200m}: both passes alert on CPU,
      and Memory draws its two canonical warnings. */
  lemma CpuLimitBelowRequestScenario(info: PodInfo, limitKeys: seq<ResourceName>, requestKeys: seq<ResourceName>)
    requires info.resources.limits == map[Cpu := 100] && info.resources.requests == map[Cpu := 200]
    requires Enumerates(limitKeys, info.resources.limits.Keys)
    requires Enumerates(requestKeys, info.resources.requests.Keys)
    ensures Evaluate(info, limitKeys, requestKeys) ==
            [ExceedsRequestLimit(info.name, info.namespace, Cpu, 100), ExceedsLimit(info.name, info.namespace, Cpu, 200),
             NoLimitSet(info.name, info.namespace, Memory, info.usage), NoRequestSet(info.name, info.namespace, Memory, info.usage)]
  {
    SingleKeyOrder(limitKeys, Cpu);
    SingleKeyOrder(requestKeys, Cpu);
    assert [Cpu][..0] == [];
    MissingIsGaps(info);
  }

  /** Each range pass emits at most one message per key of the map it ranges over. */
  lemma PassBounded(info: PodInfo, limitKeys: seq<ResourceName>, requestKeys: seq<ResourceName>)
    requires Enumerates(limitKeys, info.resources.limits.Keys)
    requires Enumerates(requestKeys, info.resources.requests.Keys)
    ensures |PassMessages(LimitsPass, info, limitKeys)| <= |info.resources.limits|
    ensures |PassMessages(RequestsPass, info, requestKeys)| <= |info.resources.requests|
  {
    EnumeratesDistinct(limitKeys, info.resources.limits.Keys);
    EnumeratesDistinct(requestKeys, info.resources.requests.Keys);
  }

  /** The canonical pass emits only WARNINGs: one for each of CPU and Memory and
      each map that lacks it, so between none and four. */
  lemma CanonicalWarnings(info: PodInfo)
    ensures var mp := MissingMessages(info, Canonical);
            Alerts(mp) == 0 &&
            |mp| == (if Cpu !in info.resources.limits then 1 else 0) + (if Cpu !in info.resources.requests then 1 else 0) +
                    (if Memory !in info.resources.limits then 1 else 0) + (if Memory !in info.resources.requests then 1 else 0) &&
            |mp| <= 4
  {
    MissingIsGaps(info);
  }

  /** Each canonical wording tests its own map: "no limit set" is reported for
      CPU or Memory exactly when the limits map lacks it, "no request set"
      exactly when the requests map lacks it. */
  lemma MissingWordings(info: PodInfo, limitKeys: seq<ResourceName>, requestKeys: seq<ResourceName>, k: ResourceName)
    requires Enumerates(limitKeys, info.resources.limits.Keys)
    requires Enumerates(requestKeys, info.resources.requests.Keys)
    ensures NoLimitSet(info.name, info.namespace, k, info.usage) in Evaluate(info, limitKeys, requestKeys) <==>
            (k == Cpu || k == Memory) && k !in info.resources.limits
    ensures NoRequestSet(info.name, info.namespace, k, info.usage) in Evaluate(info, limitKeys, requestKeys) <==>
            (k == Cpu || k == Memory) && k !in info.resources.requests
  {
    var e := Evaluate(info, limitKeys, requestKeys);
    var noLimit, noRequest := NoLimitSet(info.name, info.namespace, k, info.usage), NoRequestSet(info.name, info.namespace, k, info.usage);
    EvaluateAbout(info, limitKeys, requestKeys, k);
    WordingsAbout(info, k);
    AboutWithin(e, k);
    if noLimit in e {
      AboutHas(e, noLimit);
    }
    if noRequest in e {
      AboutHas(e, noRequest);
    }
  }

  /** Among the messages about one key, the canonical wordings test their own maps. */
  lemma WordingsAbout(info: PodInfo, k: ResourceName)
    ensures var v := Verdict(LimitsPass, info, k) + Verdict(RequestsPass, info, k) +
                     (if k == Cpu || k == Memory then Gaps(info, k) else []);
            (NoLimitSet(info.name, info.namespace, k, info.usage) in v <==> (k == Cpu || k == Memory) && k !in info.resources.limits) &&
            (NoRequestSet(info.name, info.namespace, k, info.usage) in v <==> (k == Cpu || k == Memory) && k !in info.resources.requests)
  {
  }

  /** Limits-pass messages come first, then requests-pass messages, then the
      canonical warnings. */
  lemma PhasesOrdered(info: PodInfo, limitKeys: seq<ResourceName>, requestKeys: seq<ResourceName>)
    ensures var e := Evaluate(info, limitKeys, requestKeys);
            forall i, j | 0 <= i < j < |e| :: Phase(e[i]) <= Phase(e[j])
  {
    var lp := PassMessages(LimitsPass, info, limitKeys);
    var rp := PassMessages(RequestsPass, info, requestKeys);
    var mp := MissingMessages(info, Canonical);
    PassPhase(LimitsPass, info, limitKeys);
    PassPhase(RequestsPass, info, requestKeys);
    MissingPhase(info, Canonical);
    var e := lp + rp + mp;
    forall i, j | 0 <= i < j < |e| ensures Phase(e[i]) <= Phase(e[j]) {
      assert e[i] in lp || e[i] in rp || e[i] in mp;
      assert e[j] in lp || e[j] in rp || e[j] in mp;
      assert i < |lp| ==> e[i] in lp;
      assert |lp| <= i < |lp| + |rp| ==> e[i] == rp[i - |lp|];
      assert |lp| <= j < |lp| + |rp| ==> e[j] == rp[j - |lp|];
      assert |lp| + |rp| <= j ==> e[j] == mp[j - |lp| - |rp|];
      assert j < |lp| ==> e[j] == lp[j];
    }
  }

  lemma {:induction false} PassPhase(p: Pass, info: PodInfo, keys: seq<ResourceName>)
    ensures forall m | m in PassMessages(p, info, keys) :: Phase(m) == if p == LimitsPass then 0 else 1
  {
    if keys != [] {
      PassPhase(p, info, keys[..|keys| - 1]);
    }
  }

  lemma {:induction false} MissingPhase(info: PodInfo, names: seq<ResourceName>)
    ensures forall m | m in MissingMessages(info, names) :: Phase(m) == 2
  {
    if names != [] {
      MissingPhase(info, names[..|names| - 1]);
    }
  }

  /** The order in which Go ranges the two maps changes the order of the
      messages but not which messages are dispatched, nor how often. */
  lemma OrderIndependent(info: PodInfo, lk1: seq<ResourceName>, rk1: seq<ResourceName>,
                         lk2: seq<ResourceName>, rk2: seq<ResourceName>)
    requires Enumerates(lk1, info.resources.limits.Keys) && Enumerates(rk1, info.resources.requests.Keys)
    requires Enumerates(lk2, info.resources.limits.Keys) && Enumerates(rk2, info.resources.requests.Keys)
    ensures multiset(Evaluate(info, lk1, rk1)) == multiset(Evaluate(info, lk2, rk2))
  {
    var e1, e2 := Evaluate(info, lk1, rk1), Evaluate(info, lk2, rk2);
    forall m: Message ensures multiset(e1)[m] == multiset(e2)[m] {
      EvaluateAbout(info, lk1, rk1, m.resource);
      EvaluateAbout(info, lk2, rk2, m.resource);
      AboutKeepsCount(e1, m);
      AboutKeepsCount(e2, m);
    }
  }

  /** Selecting the messages about `m.resource` keeps every copy of `m`. */
  lemma {:induction false} AboutKeepsCount(msgs: seq<Message>, m: Message)
    ensures multiset(About(msgs, m.resource))[m] == multiset(msgs)[m]
  {
    if msgs != [] {
      assert msgs == [msgs[0]] + msgs[1..];
      AboutKeepsCount(msgs[1..], m);
    }
  }
}

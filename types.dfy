/** Data model shared by both evaluators: declared resource maps, usage samples,
    the per-container record built each cycle, and the messages the checks emit. */
module Types {

  /** `v1.ResourceName`, a named string type such as "cpu" or "memory"; the set
      of names is open. */
  datatype ResourceName = ResourceName(text: string)

  /** A resource quantity in canonical milli-units; `Quantity.Cmp` is integer order. */
  type Quantity = int

  /** `v1.ResourceList`: at most one quantity per resource name. */
  type ResourceList = map<ResourceName, Quantity>

  const Cpu: ResourceName := ResourceName("cpu")
  const Memory: ResourceName := ResourceName("memory")

  /** The canonical checklist, in the order both evaluators visit it. */
  const Canonical: seq<ResourceName> := [Cpu, Memory]

  /** Pods in this namespace are never inspected. */
  const SystemNamespace: string := "kube-system"

  /** Bytes per mebibyte: the divisor of the memory conversion. */
  const MiB: int := 1024 * 1024

  /** `v1.ResourceRequirements`: the declared limits and requests of one container. */
  datatype Requirements = Requirements(limits: ResourceList, requests: ResourceList)

  /** One container's usage sample. `ephemeralStorage` is the value the draft
      evaluator records; the main program leaves it at Go's zero value. */
  datatype UsageInfo = UsageInfo(name: string, cpu: int, memory: int, ephemeralStorage: int)

  /** One inspected container: its pod's identity, its declared requirements and
      the usage samples of every container of its pod. */
  datatype PodInfo = PodInfo(name: string, namespace: string, resources: Requirements, usage: seq<UsageInfo>)

  /** One constructor per message template. Every message names the pod, its
      namespace and a resource; the first four echo a quantity, the last two the
      usage snapshot. */
  datatype Message =
    | ExceedsRequestLimit(pod: string, namespace: string, resource: ResourceName, quantity: Quantity)
    | ExceedsLimit(pod: string, namespace: string, resource: ResourceName, quantity: Quantity)
    | LimitWithoutRequest(pod: string, namespace: string, resource: ResourceName, quantity: Quantity)
    | RequestWithoutLimit(pod: string, namespace: string, resource: ResourceName, quantity: Quantity)
    | NoLimitSet(pod: string, namespace: string, resource: ResourceName, usage: seq<UsageInfo>)
    | NoRequestSet(pod: string, namespace: string, resource: ResourceName, usage: seq<UsageInfo>)
  {
    /** The ALERT templates; every other template is a WARNING. */
    predicate IsAlert() {
      ExceedsRequestLimit? || ExceedsLimit?
    }
  }

  /** The outcome of a fallible call to the cluster: a value, or an error that is only logged. */
  datatype Outcome<T> = Ok(value: T) | Failed

  /** One container's entry in a pod's metrics: CPU already in milli-units, memory
      and ephemeral storage in bytes. */
  datatype ContainerMetrics = ContainerMetrics(name: string, cpuMilli: int, memoryBytes: int, storageBytes: int)

  datatype Container = Container(name: string, resources: Requirements)

  datatype Pod = Pod(name: string, namespace: string, containers: seq<Container>)

  /** No resource name occurs twice in `keys`. */
  ghost predicate Distinct(keys: seq<ResourceName>) {
    forall i, j | 0 <= i < j < |keys| :: keys[i] != keys[j]
  }

  /** `keys` lists every element of `s` exactly once: one possible order of a Go
      `range` over a map whose key set is `s`. The last key visited is one of `s`,
      and the keys before it list the rest. */
  ghost predicate Enumerates(keys: seq<ResourceName>, s: set<ResourceName>)
    decreases |keys|
  {
    if keys == [] then s == {}
    else
      var last := keys[|keys| - 1];
      last in s && Enumerates(keys[..|keys| - 1], s - {last})
  }

  /** Ranging over one more, not yet visited, key extends the enumeration. */
  lemma EnumerationStep(keys: seq<ResourceName>, done: set<ResourceName>, k: ResourceName)
    requires Enumerates(keys, done) && k !in done
    ensures Enumerates(keys + [k], done + {k})
  {
    assert (keys + [k])[..|keys|] == keys;
    assert (done + {k}) - {k} == done;
  }

  /** The order in which a Go `range` visits the keys `s` of a map: unspecified,
      so the model picks each next key arbitrarily among those not yet visited. */
  method RangeOrder(s: set<ResourceName>) returns (keys: seq<ResourceName>)
    ensures Enumerates(keys, s)
  {
    var remaining := s;
    keys := [];
    ghost var done: set<ResourceName> := {};
    while remaining != {}
      invariant done <= s && remaining == s - done
      invariant Enumerates(keys, done)
      decreases remaining
    {
      var k :| k in remaining;
      EnumerationStep(keys, done, k);
      keys := keys + [k];
      done := done + {k};
      remaining := remaining - {k};
    }
    assert done == s;
  }

  /** A map with a single key is ranged over in the only possible order. */
  lemma SingleKeyOrder(keys: seq<ResourceName>, k: ResourceName)
    requires Enumerates(keys, {k})
    ensures keys == [k]
  {
    var n := |keys| - 1;
    assert keys[n] == k && Enumerates(keys[..n], {});
    assert keys[..n] == [];
  }

  /** Dropping the last key keeps the rest distinct, and the last key is not among them. */
  lemma DistinctInit(keys: seq<ResourceName>)
    requires Distinct(keys) && keys != []
    ensures Distinct(keys[..|keys| - 1]) && keys[|keys| - 1] !in keys[..|keys| - 1]
  {
    var n := |keys| - 1;
    forall i | 0 <= i < n ensures keys[..n][i] != keys[n] {
      assert keys[..n][i] == keys[i];
    }
  }

  /** A key occurs in a non-empty sequence when it is the last one or occurs before it. */
  lemma InInit(keys: seq<ResourceName>, k: ResourceName)
    requires keys != []
    ensures k in keys <==> k in keys[..|keys| - 1] || k == keys[|keys| - 1]
  {
    assert keys == keys[..|keys| - 1] + [keys[|keys| - 1]];
  }

  /** A map range visits exactly the keys of the map. */
  lemma {:induction false} EnumeratesMembers(keys: seq<ResourceName>, s: set<ResourceName>)
    requires Enumerates(keys, s)
    ensures forall k :: k in keys <==> k in s
  {
    if keys != [] {
      var n := |keys| - 1;
      EnumeratesMembers(keys[..n], s - {keys[n]});
      forall k ensures k in keys <==> k in s {
        InInit(keys, k);
      }
    }
  }

  /** A map range visits each key once, and as many times as the map has keys. */
  lemma {:induction false} EnumeratesDistinct(keys: seq<ResourceName>, s: set<ResourceName>)
    requires Enumerates(keys, s)
    ensures Distinct(keys) && |keys| == |s|
  {
    if keys != [] {
      var n := |keys| - 1;
      var init := keys[..n];
      EnumeratesDistinct(init, s - {keys[n]});
      EnumeratesMembers(init, s - {keys[n]});
      forall i, j | 0 <= i < j < |keys| ensures keys[i] != keys[j] {
        assert keys[i] == init[i];
        if j < n {
          assert keys[j] == init[j];
        } else {
          assert init[i] in init;
        }
      }
    }
  }

  /** Go's `x / (1024 * 1024)` on int64: division that truncates toward zero. */
  function ToMiB(bytes: int): (mib: int)
    ensures bytes >= 0 ==> 0 <= mib * MiB <= bytes < mib * MiB + MiB
    ensures bytes < 0 ==> bytes <= mib * MiB <= 0 && mib * MiB - bytes < MiB
  {
    if bytes >= 0 then bytes / MiB else -((-bytes) / MiB)
  }

  /** The messages of `msgs` that concern resource `k`, in order. */
  function About(msgs: seq<Message>, k: ResourceName): (r: seq<Message>)
    ensures |r| <= |msgs|
  {
    if msgs == [] then []
    else (if msgs[0].resource == k then [msgs[0]] else []) + About(msgs[1..], k)
  }

  lemma {:induction false} AboutAppend(a: seq<Message>, b: seq<Message>, k: ResourceName)
    ensures About(a + b, k) == About(a, k) + About(b, k)
  {
    if a != [] {
      assert (a + b)[0] == a[0] && (a + b)[1..] == a[1..] + b;
      AboutAppend(a[1..], b, k);
    } else {
      assert a + b == b;
    }
  }

  lemma {:induction false} AboutHas(msgs: seq<Message>, m: Message)
    requires m in msgs
    ensures m in About(msgs, m.resource)
  {
    if msgs[0] != m {
      AboutHas(msgs[1..], m);
    }
  }

  lemma {:induction false} AboutWithin(msgs: seq<Message>, k: ResourceName)
    ensures forall m | m in About(msgs, k) :: m in msgs && m.resource == k
  {
    if msgs != [] {
      AboutWithin(msgs[1..], k);
    }
  }

  /** The number of ALERT messages in `msgs`. */
  function Alerts(msgs: seq<Message>): (n: nat)
    ensures n <= |msgs|
    ensures n == 0 <==> forall m | m in msgs :: !m.IsAlert()
  {
    if msgs == [] then 0
    else (if msgs[0].IsAlert() then 1 else 0) + Alerts(msgs[1..])
  }

  lemma {:induction false} AlertsAppend(a: seq<Message>, b: seq<Message>)
    ensures Alerts(a + b) == Alerts(a) + Alerts(b)
  {
    if a != [] {
      assert (a + b)[0] == a[0] && (a + b)[1..] == a[1..] + b;
      AlertsAppend(a[1..], b);
    } else {
      assert a + b == b;
    }
  }
}

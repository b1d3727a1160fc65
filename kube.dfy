/** The Kubernetes objects the operator builds and reads, and an abstract
    pod API standing for the cluster's API server. The API keeps the pods
    of the cluster as a sequence in listing order; every call may fail for
    reasons the operator cannot see, which the model leaves open. */
module Kube {
  import opened Decimal

  datatype Option<T> = None | Some(value: T)

  /** Go's `int32`, the type of a declared cluster size. */
  newtype int32 = x: int | -0x8000_0000 <= x < 0x8000_0000

  /** internal/operator/constants.go: the image used when none is given. */
  const DefaultNATSStreamingImage := "nats-streaming:0.10.2"

  /** The error kinds the operator distinguishes (`IsAlreadyExists`); every
      other failure of the API server is `Failure`. */
  datatype ApiError = AlreadyExists | NotFound | Failure

  datatype Result<T> = Ok(value: T) | Err(error: ApiError)

  type Labels = map<string, string>

  datatype VolumeMount = VolumeMount(name: string, mountPath: string)

  datatype Volume = Volume(name: string)

  datatype Container = Container(
    name: string,
    image: string,
    command: seq<string>,
    volumeMounts: seq<VolumeMount>)

  datatype PodSpec = PodSpec(
    containers: seq<Container>,
    restartPolicy: string,
    volumes: seq<Volume>)

  /** `terminating` stands for a non-nil DeletionTimestamp. */
  datatype ObjectMeta = ObjectMeta(
    name: string,
    namespace: string,
    labels: Labels,
    annotations: Labels,
    terminating: bool)

  datatype Pod = Pod(meta: ObjectMeta, spec: PodSpec)

  const EmptyContainer := Container("", "", [], [])
  const EmptyMeta := ObjectMeta("", "", map[], map[], false)
  const EmptySpec := PodSpec([], "", [])

  const RestartPolicyNever := "Never"
  const RestartPolicyOnFailure := "OnFailure"

  /** Label pair every operator-made pod carries and the listing selects on. */
  const AppLabel := "app"
  const AppName := "nats-streaming"
  const ClusterLabel := "stan_cluster"

  /** `fmt.Sprintf("%s-%d", cluster, i)`. */
  function PodName(cluster: string, i: nat): string {
    cluster + "-" + NatToString(i)
  }

  /** Two pods of one cluster share a name only when they share an index. */
  lemma PodNameInjective(cluster: string, i: nat, j: nat)
    ensures PodName(cluster, i) == PodName(cluster, j) <==> i == j
  {
    if PodName(cluster, i) == PodName(cluster, j) {
      var k := |cluster| + 1;
      assert NatToString(i) == PodName(cluster, i)[k..];
      assert NatToString(j) == PodName(cluster, j)[k..];
      NatToStringInjective(i, j);
    }
  }

  /** `fmt.Sprintf("%s-1", cluster)` is the pod name of index 1. */
  lemma FirstPodName(cluster: string)
    ensures PodName(cluster, 1) == cluster + "-1"
  {
  }

  predicate IsNamed(p: Pod, namespace: string, name: string) {
    p.meta.namespace == namespace && p.meta.name == name
  }

  predicate HasPod(pods: seq<Pod>, namespace: string, name: string) {
    exists p :: p in pods && IsNamed(p, namespace, name)
  }

  /** A pod present before more are appended is still present after. */
  lemma HasPodPrefix(before: seq<Pod>, extra: seq<Pod>, namespace: string, name: string)
    ensures HasPod(before, namespace, name) ==> HasPod(before + extra, namespace, name)
  {
    if HasPod(before, namespace, name) {
      var p :| p in before && IsNamed(p, namespace, name);
      assert p in before + extra;
    }
  }

  /** The label selector `app=nats-streaming,stan_cluster=<cluster>` within a namespace. */
  predicate Selects(p: Pod, namespace: string, cluster: string) {
    && p.meta.namespace == namespace
    && AppLabel in p.meta.labels && p.meta.labels[AppLabel] == AppName
    && ClusterLabel in p.meta.labels && p.meta.labels[ClusterLabel] == cluster
  }

  predicate IsSubsequence(r: seq<Pod>, s: seq<Pod>)
    decreases |s|
  {
    if r == [] then true
    else if s == [] then false
    else if r[0] == s[0] then IsSubsequence(r[1..], s[1..])
    else IsSubsequence(r, s[1..])
  }

  /** The pods a label-selector listing returns, in listing order. */
  function Selected(pods: seq<Pod>, namespace: string, cluster: string): (r: seq<Pod>)
    ensures forall p :: p in r <==> p in pods && Selects(p, namespace, cluster)
    ensures |r| <= |pods|
    ensures IsSubsequence(r, pods)
  {
    if pods == [] then []
    else if Selects(pods[0], namespace, cluster) then [pods[0]] + Selected(pods[1..], namespace, cluster)
    else Selected(pods[1..], namespace, cluster)
  }

  /** The pods without a deletion timestamp, in their original order. */
  function Running(pods: seq<Pod>): (r: seq<Pod>)
    ensures forall p :: p in r <==> p in pods && !p.meta.terminating
    ensures |r| <= |pods|
    ensures IsSubsequence(r, pods)
  {
    if pods == [] then []
    else if !pods[0].meta.terminating then [pods[0]] + Running(pods[1..])
    else Running(pods[1..])
  }

  /** Running distributes over concatenation; the filtering loops rely on it. */
  lemma {:induction false} RunningAppend(s: seq<Pod>, t: seq<Pod>)
    ensures Running(s + t) == Running(s) + Running(t)
  {
    if s == [] {
      assert s + t == t;
    } else {
      assert (s + t)[0] == s[0];
      assert (s + t)[1..] == s[1..] + t;
      RunningAppend(s[1..], t);
    }
  }

  datatype Key = Key(namespace: string, name: string)

  function KeyOf(p: Pod): Key {
    Key(p.meta.namespace, p.meta.name)
  }

  /** The pods left after deleting every pod whose key is in `keys`. */
  function Without(pods: seq<Pod>, keys: set<Key>): (r: seq<Pod>)
    ensures forall p :: p in r <==> p in pods && KeyOf(p) !in keys
    ensures |r| <= |pods|
  {
    if pods == [] then []
    else if KeyOf(pods[0]) !in keys then [pods[0]] + Without(pods[1..], keys)
    else Without(pods[1..], keys)
  }

  /** The keys of the listed pods at the given positions. */
  function KeysAt(pods: seq<Pod>, indices: seq<nat>): set<Key> {
    set j | j in indices && j < |pods| :: KeyOf(pods[j])
  }

  /** Deleting keys one after another is deleting them all at once. */
  lemma {:induction false} WithoutTwice(pods: seq<Pod>, a: set<Key>, b: set<Key>)
    ensures Without(Without(pods, a), b) == Without(pods, a + b)
  {
    if pods != [] {
      WithoutTwice(pods[1..], a, b);
    }
  }

  /** Deleting no key leaves the pods as they are. */
  lemma {:induction false} WithoutNothing(pods: seq<Pod>)
    ensures Without(pods, {}) == pods
  {
    if pods != [] {
      WithoutNothing(pods[1..]);
    }
  }

  /** Deleting one more listed pod extends the set of deleted keys. */
  lemma WithoutOneMore(before: seq<Pod>, pods: seq<Pod>, deleted: seq<nat>, i: nat)
    requires i < |pods|
    ensures Without(Without(before, KeysAt(pods, deleted)), {KeyOf(pods[i])}) == Without(before, KeysAt(pods, deleted + [i]))
  {
    WithoutTwice(before, KeysAt(pods, deleted), {KeyOf(pods[i])});
    assert KeysAt(pods, deleted + [i]) == KeysAt(pods, deleted) + {KeyOf(pods[i])};
  }

  /** The API server, reduced to the pods it stores. */
  class PodApi {
    var pods: seq<Pod>

    constructor (initial: seq<Pod>)
      ensures pods == initial
    {
      pods := initial;
    }

    /** `Pods(namespace).List` with the operator's label selector. */
    method List(namespace: string, cluster: string) returns (r: Result<seq<Pod>>)
      ensures r.Ok? ==> r.value == Selected(pods, namespace, cluster)
    {
      var succeeds: bool := *;
      if succeeds {
        r := Ok(Selected(pods, namespace, cluster));
      } else {
        r := Err(Failure);
      }
    }

    /** `Pods(namespace).Get(name)`: success means that the pod exists. */
    method Get(namespace: string, name: string) returns (found: bool)
      ensures found ==> HasPod(pods, namespace, name)
    {
      var succeeds: bool := *;
      found := succeeds && HasPod(pods, namespace, name);
    }

    /** `Pods(namespace).Create(pod)`: refused when the name is taken, else
        the pod is either stored at the end of the listing or not at all. */
    method Create(pod: Pod) returns (err: Option<ApiError>)
      modifies this
      ensures HasPod(old(pods), pod.meta.namespace, pod.meta.name) ==> err == Some(AlreadyExists)
      ensures err.None? ==> pods == old(pods) + [pod]
      ensures err.Some? ==> pods == old(pods)
      ensures err != Some(AlreadyExists) || HasPod(old(pods), pod.meta.namespace, pod.meta.name)
    {
      if HasPod(pods, pod.meta.namespace, pod.meta.name) {
        err := Some(AlreadyExists);
      } else {
        var succeeds: bool := *;
        if succeeds {
          pods := pods + [pod];
          err := None;
        } else {
          err := Some(Failure);
        }
      }
    }

    /** `Pods(namespace).Delete(name)`: success removes the named pod. */
    method Delete(namespace: string, name: string) returns (err: Option<ApiError>)
      modifies this
      ensures err.None? ==> HasPod(old(pods), namespace, name) && pods == Without(old(pods), {Key(namespace, name)})
      ensures err.Some? ==> pods == old(pods)
      ensures !HasPod(old(pods), namespace, name) ==> err == Some(NotFound)
    {
      if !HasPod(pods, namespace, name) {
        err := Some(NotFound);
      } else {
        var succeeds: bool := *;
        if succeeds {
          pods := Without(pods, {Key(namespace, name)});
          err := None;
        } else {
          err := Some(Failure);
        }
      }
    }
  }

  // ---------------------------------------------------------------------
  // The two loops every generation of the operator shares

  predicate StrictlyDecreasing(s: seq<nat>) {
    forall x, y :: 0 <= x < y < |s| ==> s[x] > s[y]
  }

  /** Appending an index below all the others keeps a sequence strictly decreasing. */
  lemma AppendLower(s: seq<nat>, i: nat)
    requires StrictlyDecreasing(s)
    requires forall x :: x in s ==> x > i
    ensures StrictlyDecreasing(s + [i])
  {
    forall x, y | 0 <= x < y < |s| + 1
      ensures (s + [i])[x] > (s + [i])[y]
    {
      if y == |s| {
        assert s[x] in s;
      }
    }
  }

  /** `findRunningPods`: lists the cluster's pods and keeps, in listing
      order, those without a deletion timestamp. */
  method FindRunningPods(api: PodApi, name: string, namespace: string) returns (r: Result<seq<Pod>>)
    ensures r.Ok? ==> r.value == Running(Selected(api.pods, namespace, name))
  {
    var listed := api.List(namespace, name);
    if listed.Err? {
      return Err(listed.error);
    }
    var items := listed.value;
    var running: seq<Pod> := [];
    for k := 0 to |items|
      invariant running == Running(items[..k])
    {
      assert items[..k + 1] == items[..k] + [items[k]];
      RunningAppend(items[..k], [items[k]]);
      if !items[k].meta.terminating {
        running := running + [items[k]];
      }
    }
    assert items[..|items|] == items;
    return Ok(running);
  }

  /** What the first loop of `createMissingPods` can plan over the stored
      `pods`: at most n indices, strictly decreasing, all in 1..size and
      above the stopping point `lowest`; every index skipped above
      `lowest` names a stored pod; the scan stops at n indices or below 1. */
  predicate PlannedFrom(pods: seq<Pod>, namespace: string, cluster: string, size: int, n: nat,
                        planned: seq<nat>, lowest: int) {
    && |planned| <= n
    && StrictlyDecreasing(planned)
    && (forall k :: 0 <= k < |planned| ==> 1 <= planned[k] <= size && lowest < planned[k])
    && (forall j: nat :: lowest < j <= size && j !in planned ==> HasPod(pods, namespace, PodName(cluster, j)))
    && (|planned| == n || lowest <= 0)
  }

  /** The first loop of `createMissingPods`: scans indices from `size`
      down, skipping every index whose pod name a Get finds, until n
      indices are planned; `lowest` is where the scan stopped. The pods
      themselves are built from these indices when they are submitted. */
  method PlanMissingPods(api: PodApi, namespace: string, cluster: string, size: int, n: nat)
    returns (planned: seq<nat>, lowest: int)
    ensures PlannedFrom(api.pods, namespace, cluster, size, n, planned, lowest)
  {
    planned := [];
    var i := size;
    while |planned| < n && i > 0
      invariant i <= size && (i < size ==> 0 <= i)
      invariant |planned| <= n
      invariant StrictlyDecreasing(planned)
      invariant forall k :: 0 <= k < |planned| ==> i < planned[k] <= size && 1 <= planned[k]
      invariant forall j: nat :: i < j <= size && j !in planned ==> HasPod(api.pods, namespace, PodName(cluster, j))
    {
      var found := api.Get(namespace, PodName(cluster, i as nat));
      if !found {
        planned := planned + [i as nat];
      }
      i := i - 1;
    }
    lowest := i;
  }

  /** One deletion attempt of `shrinkCluster`: the listed pod at position
      i is deleted, or the attempt fails and nothing changes. */
  method DeleteListed(api: PodApi, pods: seq<Pod>, i: nat, ghost before: seq<Pod>, ghost deleted: seq<nat>)
    returns (err: Option<ApiError>, ghost deleted': seq<nat>)
    requires i < |pods|
    requires api.pods == Without(before, KeysAt(pods, deleted))
    modifies api
    ensures err.None? ==> deleted' == deleted + [i]
    ensures err.Some? ==> deleted' == deleted
    ensures api.pods == Without(before, KeysAt(pods, deleted'))
  {
    err := api.Delete(pods[i].meta.namespace, pods[i].meta.name);
    if err.None? {
      WithoutOneMore(before, pods, deleted, i);
      deleted' := deleted + [i];
    } else {
      deleted' := deleted;
    }
  }
}

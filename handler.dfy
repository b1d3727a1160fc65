/** The second generation of the operator (internal/operator/handler.go):
    one fixed command line for every pod, the bootstrap flag always
    appended, no size clamp and no SQL or fault-tolerance handling. */
module OperatorHandler {
  import opened Kube
  import opened ServerArgs
  import opened ClusterV1alpha1

  const ContainerName := "stan"

  // ---------------------------------------------------------------------
  // Commands

  /** `stanContainerCmd`: the same ten arguments for every pod. */
  function StanContainerCmd(o: Cluster): seq<string> {
    [ServerBinary,
     "-store", "file", "-dir", "store",
     "-clustered", "-cluster_id", o.name,
     "-nats_server", NatsUrl(o.spec.natsService)]
  }

  /** `stanContainerBootstrapCmd`: the follower's command with the bootstrap flag appended. */
  function StanContainerBootstrapCmd(o: Cluster): seq<string> {
    StanContainerCmd(o) + ["-cluster_bootstrap"]
  }

  lemma ParseCommandTail(o: Cluster)
    ensures ParseFrom(StanContainerCmd(o)[1..], Initial(ServerBinary)) == Some(LegacyOptions(o, false))
  {
    var url := NatsUrl(o.spec.natsService);
    var a, b, c, d, e := ["-store", "file"], ["-dir", "store"], ["-clustered"], ["-cluster_id", o.name], ["-nats_server", url];
    assert StanContainerCmd(o)[1..] == a + (b + (c + (d + e)));
    var s0 := Initial(ServerBinary);
    var s1 := s0.(store := Some("file"));
    var s2 := s1.(dir := Some("store"));
    var s3 := s2.(clustered := true);
    var s4 := s3.(clusterId := Some(o.name));
    var s5 := s4.(natsServer := Some(url));
    ParsePair("-store", "file", s0);
    ParsePair("-dir", "store", s1);
    ParseSwitch("-clustered", s2);
    ParsePair("-cluster_id", o.name, s3);
    ParsePair("-nats_server", url, s4);
    ParseFromConcat(d, e, s3, s4);
    ParseFromConcat(c, d + e, s2, s3);
    ParseFromConcat(b, c + (d + e), s1, s2);
    ParseFromConcat(a, b + (c + (d + e)), s0, s1);
    assert s5 == LegacyOptions(o, false);
  }

  /** A follower's command reads back as a clustered file store in `store`,
      joined to the cluster's NATS service, with no bootstrap flag. */
  lemma CommandReadsBack(o: Cluster)
    ensures |StanContainerCmd(o)| == 10
    ensures Parse(StanContainerCmd(o)) == Some(LegacyOptions(o, false))
  {
    ParseCommandTail(o);
  }

  /** The bootstrap command is the follower's command and one trailing
      bootstrap flag, whatever the Size, and reads back as the same
      settings with the bootstrap flag set. */
  lemma BootstrapCommandReadsBack(o: Cluster)
    ensures var cmd := StanContainerBootstrapCmd(o);
      |cmd| == 11 && cmd[..10] == StanContainerCmd(o) && cmd[10] == "-cluster_bootstrap"
    ensures Parse(StanContainerBootstrapCmd(o)) == Some(LegacyOptions(o, true))
  {
    var cmd := StanContainerCmd(o);
    var boot := StanContainerBootstrapCmd(o);
    ParseCommandTail(o);
    assert boot[1..] == cmd[1..] + ["-cluster_bootstrap"];
    ParseSwitch("-cluster_bootstrap", LegacyOptions(o, false));
    ParseFromConcat(cmd[1..], ["-cluster_bootstrap"], Initial(ServerBinary), LegacyOptions(o, false));
  }

  // ---------------------------------------------------------------------
  // Pod assembly

  /** `newStanPod`: exactly the two operator labels, the cluster's
      namespace, and a spec holding only the `Never` restart policy. */
  function NewStanPod(o: Cluster): (pod: Pod)
    ensures pod.meta.labels == map[AppLabel := AppName, ClusterLabel := o.name]
    ensures pod.meta.namespace == o.namespace && pod.meta.name == ""
    ensures pod.spec == PodSpec([], RestartPolicyNever, [])
    ensures Selects(pod, o.namespace, o.name)
  {
    Pod(EmptyMeta.(namespace := o.namespace, labels := map[AppLabel := AppName, ClusterLabel := o.name]),
        EmptySpec.(restartPolicy := RestartPolicyNever))
  }

  /** `stanContainer`: named `stan`, mounting the declared volumes, running
      the declared image or else the default one. */
  function StanContainer(o: Cluster): (c: Container)
    ensures c.name == ContainerName && c.volumeMounts == o.spec.volumeMounts && c.command == []
    ensures o.spec.image != "" ==> c.image == o.spec.image
    ensures o.spec.image == "" ==> c.image == DefaultNATSStreamingImage
    ensures c.image != ""
  {
    Container(ContainerName, if o.spec.image != "" then o.spec.image else DefaultNATSStreamingImage,
              [], o.spec.volumeMounts)
  }

  /** The pod `createBootstrapPod` submits. */
  function BootstrapPod(o: Cluster): Pod {
    var pod := NewStanPod(o);
    var c := StanContainer(o).(command := StanContainerBootstrapCmd(o));
    pod.(meta := pod.meta.(name := o.name + "-1"), spec := pod.spec.(containers := [c], volumes := o.spec.volume))
  }

  /** The pod `createMissingPods` submits for index i. */
  function MemberPod(o: Cluster, i: nat): Pod {
    var pod := NewStanPod(o);
    var c := StanContainer(o).(command := StanContainerCmd(o));
    pod.(meta := pod.meta.(name := PodName(o.name, i)), spec := pod.spec.(containers := [c]))
  }

  /** Both kinds of pod carry the operator labels and exactly one `stan`
      container; only the bootstrap pod carries the declared volumes and
      the bootstrap flag. */
  lemma SubmittedPods(o: Cluster, i: nat)
    ensures var p := MemberPod(o, i);
      && p.meta.name == PodName(o.name, i) && Selects(p, o.namespace, o.name)
      && |p.spec.containers| == 1 && p.spec.containers[0].name == ContainerName
      && p.spec.containers[0].volumeMounts == o.spec.volumeMounts
      && p.spec.volumes == [] && p.spec.restartPolicy == RestartPolicyNever
      && Parse(p.spec.containers[0].command) == Some(LegacyOptions(o, false))
    ensures var p := BootstrapPod(o);
      && p.meta.name == PodName(o.name, 1) && Selects(p, o.namespace, o.name)
      && |p.spec.containers| == 1 && p.spec.containers[0].name == ContainerName
      && p.spec.containers[0].volumeMounts == o.spec.volumeMounts
      && p.spec.volumes == o.spec.volume && p.spec.restartPolicy == RestartPolicyNever
      && Parse(p.spec.containers[0].command) == Some(LegacyOptions(o, true))
  {
    CommandReadsBack(o);
    BootstrapCommandReadsBack(o);
    FirstPodName(o.name);
  }

  // ---------------------------------------------------------------------
  // Decision

  datatype Action = NoAction | Shrink(surplus: nat) | CreateMissing(missing: nat) | CreateBootstrap

  /** The branch `Handle` takes, from whether the UID is cached and how
      many pods run; the Size is used as declared, even when below 1. */
  function Decide(o: Cluster, seen: bool, running: nat): (a: Action)
    ensures a == NoAction <==> running == o.spec.size as int
    ensures a.Shrink? <==> running > o.spec.size as int
    ensures a.Shrink? ==> a.surplus == running - o.spec.size as int
    ensures a == CreateBootstrap <==> running < o.spec.size as int && !seen
    ensures a.CreateMissing? <==> running < o.spec.size as int && seen
    ensures a.CreateMissing? ==> a.missing == o.spec.size as int - running
  {
    var n := running - o.spec.size as int;
    if n == 0 then NoAction
    else if n > 0 then Shrink(n)
    else if !seen then CreateBootstrap
    else CreateMissing(-n)
  }

  // MemberPods, MemberPodsAppend, AddedMembers and AddedBy have the same
  // shape in every generation; each generation has its own copy because
  // each builds its member pods with its own `MemberPod`.

  function MemberPods(o: Cluster, indices: seq<nat>): (r: seq<Pod>)
    ensures |r| == |indices|
    ensures forall k :: 0 <= k < |indices| ==> r[k] == MemberPod(o, indices[k])
  {
    if indices == [] then [] else [MemberPod(o, indices[0])] + MemberPods(o, indices[1..])
  }

  lemma {:induction false} MemberPodsAppend(o: Cluster, s: seq<nat>, i: nat)
    ensures MemberPods(o, s + [i]) == MemberPods(o, s) + [MemberPod(o, i)]
  {
    assert |MemberPods(o, s + [i])| == |s| + 1;
  }

  function RunningFor(pods: seq<Pod>, o: Cluster): seq<Pod> {
    Running(ListedFor(pods, o))
  }

  ghost predicate AddedMembers(o: Cluster, before: seq<Pod>, after: seq<Pod>, n: nat) {
    exists planned: seq<nat>, lowest: int, c: seq<nat>
      {:trigger PlannedFrom(before, o.namespace, o.name, o.spec.size as int, n, planned, lowest), MemberPods(o, c)} ::
      && PlannedFrom(before, o.namespace, o.name, o.spec.size as int, n, planned, lowest)
      && StrictlyDecreasing(c) && |c| <= |planned|
      && (forall x :: x in c ==> x in planned)
      && (forall x :: x in c ==> !HasPod(before, o.namespace, PodName(o.name, x)))
      && after == before + MemberPods(o, c)
  }

  /** `after` is `before` less at most `n` of the listed `pods`, never the
      first; an error comes back exactly when there were at least two
      listed pods, fewer than `n` went, and position 1 was not deleted. */
  ghost predicate Shrunk(before: seq<Pod>, after: seq<Pod>, pods: seq<Pod>, n: nat, err: Option<ApiError>) {
    exists d: seq<nat> ::
      && |d| <= n && StrictlyDecreasing(d)
      && (forall x :: x in d ==> 1 <= x < |pods|)
      && after == Without(before, KeysAt(pods, d))
      && (err.Some? <==> |pods| >= 2 && |d| < n && 1 !in d)
  }

  lemma ShrunkBy(before: seq<Pod>, after: seq<Pod>, pods: seq<Pod>, n: nat, err: Option<ApiError>, d: seq<nat>)
    requires |d| <= n && StrictlyDecreasing(d)
    requires forall k :: 0 <= k < |d| ==> 1 <= d[k] < |pods|
    requires after == Without(before, KeysAt(pods, d))
    requires err.Some? <==> |pods| >= 2 && |d| < n && 1 !in d
    ensures Shrunk(before, after, pods, n, err)
  {
    assert forall x :: x in d ==> 1 <= x < |pods|;
  }

  lemma AddedBy(o: Cluster, before: seq<Pod>, after: seq<Pod>, n: nat, planned: seq<nat>, lowest: int, c: seq<nat>)
    requires PlannedFrom(before, o.namespace, o.name, o.spec.size as int, n, planned, lowest)
    requires StrictlyDecreasing(c) && |c| <= |planned|
    requires forall x :: x in c ==> x in planned
    requires forall x :: x in c ==> !HasPod(before, o.namespace, PodName(o.name, x))
    requires after == before + MemberPods(o, c)
    ensures AddedMembers(o, before, after, n)
  {
  }

  ghost predicate Effect(o: Cluster, before: seq<Pod>, after: seq<Pod>, a: Action, err: Option<ApiError>) {
    match a
    case NoAction => err.None? && after == before
    case Shrink(k) => Shrunk(before, after, RunningFor(before, o), k, err)
    case CreateMissing(k) => err.None? && AddedMembers(o, before, after, k)
    case CreateBootstrap =>
      && (after == before || after == before + [BootstrapPod(o)])
      && (err.Some? ==> after == before && err != Some(AlreadyExists))
      && (err.None? && after == before ==> HasPod(before, o.namespace, o.name + "-1"))
      && (HasPod(before, o.namespace, o.name + "-1") ==> err.None? && after == before)
      && (!HasPod(before, o.namespace, o.name + "-1") && err.None? ==> after == before + [BootstrapPod(o)])
  }

  // ---------------------------------------------------------------------
  // The handler and its cache

  class Handler {
    /** The clusters seen so far, by UID. */
    var clusters: map<string, Cluster>
    const api: PodApi

    /** `NewHandler`: an empty cache. */
    constructor (api: PodApi)
      ensures clusters == map[] && this.api == api
    {
      clusters := map[];
      this.api := api;
    }

    /** `createBootstrapPod`: submits `<name>-1` with the bootstrap command
        as its sole container and the declared volumes; "already exists"
        counts as success. */
    method CreateBootstrapPod(o: Cluster) returns (err: Option<ApiError>)
      modifies api
      ensures api.pods == old(api.pods) || api.pods == old(api.pods) + [BootstrapPod(o)]
      ensures err.None? && api.pods == old(api.pods) ==> HasPod(old(api.pods), o.namespace, o.name + "-1")
      ensures err.Some? ==> api.pods == old(api.pods) && err != Some(AlreadyExists)
      ensures HasPod(old(api.pods), o.namespace, o.name + "-1") ==> err.None? && api.pods == old(api.pods)
      ensures !HasPod(old(api.pods), o.namespace, o.name + "-1") && err.None? ==> api.pods == old(api.pods) + [BootstrapPod(o)]
    {
      var e := api.Create(BootstrapPod(o));
      if e.Some? && e != Some(AlreadyExists) {
        return e;
      }
      return None;
    }

    /** The second loop of `createMissingPods`: submits the member pod of
        each planned index in order, going on past every failure.
        `created` are the indices the API accepted. */
    method SubmitPods(o: Cluster, indices: seq<nat>) returns (ghost created: seq<nat>)
      requires StrictlyDecreasing(indices)
      modifies api
      ensures StrictlyDecreasing(created) && |created| <= |indices|
      ensures forall x :: x in created ==> x in indices
      ensures api.pods == old(api.pods) + MemberPods(o, created)
      ensures forall x :: x in created ==> !HasPod(old(api.pods), o.namespace, PodName(o.name, x))
    {
      created := [];
      for k := 0 to |indices|
        invariant api.pods == old(api.pods) + MemberPods(o, created)
        invariant StrictlyDecreasing(created) && |created| <= k
        invariant forall x :: x in created ==> x in indices[..k]
        invariant forall x :: x in created ==> !HasPod(old(api.pods), o.namespace, PodName(o.name, x))
      {
        var pod := MemberPod(o, indices[k]);
        var e := api.Create(pod);
        if e.None? {
          HasPodPrefix(old(api.pods), MemberPods(o, created), o.namespace, PodName(o.name, indices[k]));
          assert forall x :: x in created ==> x > indices[k];
          AppendLower(created, indices[k]);
          MemberPodsAppend(o, created, indices[k]);
          created := created + [indices[k]];
        }
      }
      assert indices[..|indices|] == indices;
    }

    /** `createMissingPods`: plans up to n missing indices from Size down,
        then submits their pods; the result is always nil. */
    method CreateMissingPods(o: Cluster, n: nat)
      returns (err: Option<ApiError>, ghost planned: seq<nat>, ghost created: seq<nat>, ghost lowest: int)
      modifies api
      ensures err.None?
      ensures PlannedFrom(old(api.pods), o.namespace, o.name, o.spec.size as int, n, planned, lowest)
      ensures StrictlyDecreasing(created) && |created| <= |planned|
      ensures forall x :: x in created ==> x in planned
      ensures api.pods == old(api.pods) + MemberPods(o, created)
      ensures forall x :: x in created ==> !HasPod(old(api.pods), o.namespace, PodName(o.name, x))
    {
      var indices;
      indices, lowest := PlanMissingPods(api, o.namespace, o.name, o.spec.size as int, n);
      planned := indices;
      created := SubmitPods(o, indices);
      err := None;
    }

    /** `shrinkCluster`: deletes from the end of the listing, never the pod
        at position 0, until `delta` deletions succeeded. Here the error of
        each attempt is kept, so the result is the last attempt's error
        when the loop runs out, and nil when it stops at `delta`. */
    method ShrinkCluster(pods: seq<Pod>, delta: nat)
      returns (err: Option<ApiError>, ghost deleted: seq<nat>, ghost lowestTried: int)
      modifies api
      ensures |deleted| <= delta && StrictlyDecreasing(deleted)
      ensures |deleted| < |pods| || deleted == []
      ensures forall k :: 0 <= k < |deleted| ==> 1 <= deleted[k] < |pods| && lowestTried <= deleted[k]
      ensures |deleted| < delta ==> lowestTried <= 1
      ensures 0 < |deleted| == delta ==> lowestTried == deleted[|deleted| - 1]
      ensures err.Some? <==> |pods| >= 2 && |deleted| < delta && 1 !in deleted
      ensures api.pods == Without(old(api.pods), KeysAt(pods, deleted))
    {
      var count := 0;
      deleted := [];
      var i := |pods| - 1;
      lowestTried := |pods|;
      err := None;
      WithoutNothing(api.pods);
      assert KeysAt(pods, deleted) == {};
      while i > 0
        invariant -1 <= i < |pods| && lowestTried == i + 1 && (i < 0 ==> |pods| == 0)
        invariant count == |deleted| <= delta && |deleted| <= |pods| - 1 - i
        invariant StrictlyDecreasing(deleted)
        invariant forall k :: 0 <= k < |deleted| ==> i < deleted[k] < |pods| && 1 <= deleted[k]
        invariant 0 < |deleted| ==> deleted[|deleted| - 1] == i + 1 || count < delta
        invariant err.Some? ==> i + 1 < |pods| && count < delta && forall k :: 0 <= k < |deleted| ==> deleted[k] > i + 1
        invariant err.None? ==> i + 1 == |pods| || (0 < |deleted| && deleted[|deleted| - 1] == i + 1)
        invariant api.pods == Without(old(api.pods), KeysAt(pods, deleted))
      {
        if count == delta {
          return None, deleted, lowestTried;
        }
        err, deleted := DeleteListed(api, pods, i, old(api.pods), deleted);
        if err.None? {
          count := count + 1;
        }
        i := i - 1;
        lowestTried := i + 1;
      }
    }

    /** The branches of `Handle` after the listing. */
    method Dispatch(o: Cluster, pods: seq<Pod>, seen: bool) returns (err: Option<ApiError>)
      requires pods == RunningFor(api.pods, o)
      modifies api
      ensures Effect(o, old(api.pods), api.pods, Decide(o, seen, |pods|), err)
    {
      var n := |pods| - o.spec.size as int;
      if n == 0 {
        err := None;
      } else if n > 0 {
        ghost var deleted, lowestTried;
        err, deleted, lowestTried := ShrinkCluster(pods, n);
        ShrunkBy(old(api.pods), api.pods, pods, n, err, deleted);
      } else if !seen {
        err := CreateBootstrapPod(o);
      } else {
        ghost var planned, created, lowest;
        err, planned, created, lowest := CreateMissingPods(o, -n);
        AddedBy(o, old(api.pods), api.pods, -n, planned, lowest, created);
      }
    }

    /** `Handle`: a declaration being deleted is dropped from the cache;
        any other is cached under its UID after the pass, also when the
        listing fails, and its running pods are brought to Size as
        `Decide` says. `action` is the branch taken, if any. */
    method Handle(o: Cluster) returns (err: Option<ApiError>, ghost action: Option<Action>)
      modifies this, api
      ensures o.deleting ==> clusters == old(clusters) - {o.uid} && api.pods == old(api.pods) && err.None?
      ensures o.deleting ==> action.None?
      ensures !o.deleting ==> clusters == old(clusters)[o.uid := o]
      ensures !o.deleting && action.None? ==> err.Some? && api.pods == old(api.pods)
      ensures action.Some? ==> action.value == Decide(o, o.uid in old(clusters), |RunningFor(old(api.pods), o)|)
      ensures action.Some? ==> Effect(o, old(api.pods), api.pods, action.value, err)
    {
      if o.deleting {
        clusters := clusters - {o.uid};
        return None, None;
      }
      var listed := FindRunningPods(api, o.name, o.namespace);
      if listed.Err? {
        clusters := clusters[o.uid := o];
        return Some(listed.error), None;
      }
      action := Some(Decide(o, o.uid in clusters, |listed.value|));
      err := Dispatch(o, listed.value, o.uid in clusters);
      clusters := clusters[o.uid := o];
    }
  }
}

/** The first generation of the operator (pkg/stub/handler.go): literal
    command lines with the bootstrap flag in the middle, the declared image
    taken as it is, a count of every listed pod, and no shrinking. */
module StubHandler {
  import opened Kube
  import opened ServerArgs
  import opened ClusterV1alpha1

  const ContainerName := "stan"

  // ---------------------------------------------------------------------
  // Commands

  /** The command `createMissingPods` gives a follower. */
  function FollowerCmd(o: Cluster): seq<string> {
    [ServerBinary,
     "-store", "file", "-dir", "store",
     "-clustered", "-cluster_id", o.name,
     "-nats_server", NatsUrl(o.spec.natsService)]
  }

  /** The command `createBootstrapPod` gives `<name>-1`: the bootstrap flag
      sits right after the cluster id. */
  function BootstrapCmd(o: Cluster): seq<string> {
    [ServerBinary,
     "-store", "file", "-dir", "store",
     "-clustered", "-cluster_id", o.name,
     "-cluster_bootstrap",
     "-nats_server", NatsUrl(o.spec.natsService)]
  }

  /** The follower's command reads back as a clustered file store in
      `store`, joined to the cluster's NATS service, with no bootstrap flag. */
  lemma FollowerCommandReadsBack(o: Cluster)
    ensures Parse(FollowerCmd(o)) == Some(LegacyOptions(o, false))
  {
    var url := NatsUrl(o.spec.natsService);
    var a, b, c, d, e := ["-store", "file"], ["-dir", "store"], ["-clustered"], ["-cluster_id", o.name], ["-nats_server", url];
    assert FollowerCmd(o)[1..] == a + (b + (c + (d + e)));
    var s0 := Initial(ServerBinary);
    var s1 := s0.(store := Some("file"));
    var s2 := s1.(dir := Some("store"));
    var s3 := s2.(clustered := true);
    var s4 := s3.(clusterId := Some(o.name));
    ParsePair("-store", "file", s0);
    ParsePair("-dir", "store", s1);
    ParseSwitch("-clustered", s2);
    ParsePair("-cluster_id", o.name, s3);
    ParsePair("-nats_server", url, s4);
    ParseFromConcat(d, e, s3, s4);
    ParseFromConcat(c, d + e, s2, s3);
    ParseFromConcat(b, c + (d + e), s1, s2);
    ParseFromConcat(a, b + (c + (d + e)), s0, s1);
    assert s4.(natsServer := Some(url)) == LegacyOptions(o, false);
  }

  /** The bootstrap command reads back as the follower's settings with the
      bootstrap flag set, so the flag is given exactly once. */
  lemma BootstrapCommandReadsBack(o: Cluster)
    ensures Parse(BootstrapCmd(o)) == Some(LegacyOptions(o, true))
  {
    var url := NatsUrl(o.spec.natsService);
    var a, b, c, d, f, e := ["-store", "file"], ["-dir", "store"], ["-clustered"], ["-cluster_id", o.name],
                            ["-cluster_bootstrap"], ["-nats_server", url];
    assert BootstrapCmd(o)[1..] == a + (b + (c + (d + (f + e))));
    var s0 := Initial(ServerBinary);
    var s1 := s0.(store := Some("file"));
    var s2 := s1.(dir := Some("store"));
    var s3 := s2.(clustered := true);
    var s4 := s3.(clusterId := Some(o.name));
    var s5 := s4.(bootstrap := true);
    ParsePair("-store", "file", s0);
    ParsePair("-dir", "store", s1);
    ParseSwitch("-clustered", s2);
    ParsePair("-cluster_id", o.name, s3);
    ParseSwitch("-cluster_bootstrap", s4);
    ParsePair("-nats_server", url, s5);
    ParseFromConcat(f, e, s4, s5);
    ParseFromConcat(d, f + e, s3, s4);
    ParseFromConcat(c, d + (f + e), s2, s3);
    ParseFromConcat(b, c + (d + (f + e)), s1, s2);
    ParseFromConcat(a, b + (c + (d + (f + e))), s0, s1);
    assert s5.(natsServer := Some(url)) == LegacyOptions(o, true);
  }

  /** The bootstrap command is the follower's command with the flag
      inserted between `-cluster_id <name>` and `-nats_server`. */
  lemma BootstrapCommandLayout(o: Cluster)
    ensures var boot := BootstrapCmd(o);
      && |boot| == 11
      && boot[6..8] == ["-cluster_id", o.name] && boot[8] == "-cluster_bootstrap" && boot[9] == "-nats_server"
      && boot[..8] + boot[9..] == FollowerCmd(o)
  {
    var boot := BootstrapCmd(o);
    assert boot[..8] + boot[9..] == FollowerCmd(o);
  }

  // ---------------------------------------------------------------------
  // Pod assembly

  /** `newStanPod`: exactly the two operator labels, the cluster's
      namespace, and an empty spec. */
  function NewStanPod(o: Cluster): (pod: Pod)
    ensures pod.meta.labels == map[AppLabel := AppName, ClusterLabel := o.name]
    ensures pod.meta.namespace == o.namespace && pod.meta.name == ""
    ensures pod.spec == PodSpec([], "", [])
    ensures Selects(pod, o.namespace, o.name)
  {
    Pod(EmptyMeta.(namespace := o.namespace, labels := map[AppLabel := AppName, ClusterLabel := o.name]), EmptySpec)
  }

  /** A pod named `name` whose sole container `stan` runs the declared
      image, as it is, with `command`. */
  function SoleContainerPod(o: Cluster, name: string, command: seq<string>): Pod {
    var pod := NewStanPod(o);
    pod.(meta := pod.meta.(name := name),
         spec := pod.spec.(containers := [Container(ContainerName, o.spec.image, command, [])]))
  }

  function BootstrapPod(o: Cluster): Pod {
    SoleContainerPod(o, o.name + "-1", BootstrapCmd(o))
  }

  function MemberPod(o: Cluster, i: nat): Pod {
    SoleContainerPod(o, PodName(o.name, i), FollowerCmd(o))
  }

  /** Every pod the stub submits carries exactly the operator labels, an
      empty restart policy and one `stan` container with the declared image
      verbatim, even an empty one; only the bootstrap pod bootstraps. */
  lemma SubmittedPods(o: Cluster, i: nat)
    ensures var p := MemberPod(o, i);
      && p.meta.name == PodName(o.name, i) && Selects(p, o.namespace, o.name)
      && p.meta.labels == map[AppLabel := AppName, ClusterLabel := o.name]
      && |p.spec.containers| == 1 && p.spec.containers[0].name == ContainerName
      && p.spec.containers[0].image == o.spec.image
      && p.spec.restartPolicy == "" && p.spec.volumes == []
      && Parse(p.spec.containers[0].command) == Some(LegacyOptions(o, false))
    ensures var p := BootstrapPod(o);
      && p.meta.name == PodName(o.name, 1) && Selects(p, o.namespace, o.name)
      && p.meta.labels == map[AppLabel := AppName, ClusterLabel := o.name]
      && |p.spec.containers| == 1 && p.spec.containers[0].name == ContainerName
      && p.spec.containers[0].image == o.spec.image
      && p.spec.restartPolicy == "" && p.spec.volumes == []
      && Parse(p.spec.containers[0].command) == Some(LegacyOptions(o, true))
  {
    FollowerCommandReadsBack(o);
    BootstrapCommandReadsBack(o);
    FirstPodName(o.name);
  }

  // ---------------------------------------------------------------------
  // Decision

  datatype Action = NoAction | CreateMissing(missing: nat) | CreateBootstrap

  /** The branch `Handle` takes from whether the UID is cached and how many
      pods are listed, terminating ones included; a surplus is left alone. */
  function Decide(o: Cluster, seen: bool, listed: nat): (a: Action)
    ensures a == NoAction <==> listed >= o.spec.size as int
    ensures a == CreateBootstrap <==> listed < o.spec.size as int && !seen
    ensures a.CreateMissing? <==> listed < o.spec.size as int && seen
    ensures a.CreateMissing? ==> a.missing == o.spec.size as int - listed
  {
    var n := o.spec.size as int - listed;
    if n <= 0 then NoAction
    else if !seen then CreateBootstrap
    else CreateMissing(n)
  }

  // MemberPods, MemberPodsAppend, AddedMembers and AddedBy have the same
  // shape in every generation; each generation has its own copy because
  // each builds its member pods with its own `MemberPod`.

  function MemberPods(o: Cluster, indices: seq<nat>): (r: seq<Pod>)
    ensures |r| == |indices|
    ensures forall k :: 0 <= k < |indices| ==> r[k] == MemberPod(o, indices[k])
  {
    if indices == [] then [] else [MemberPod(o, indices[0])] + MemberPods(o, indices[1..])
  }

  lemma {:induction false} MemberPodsAppend(o: Cluster, s: seq<nat>, i: nat)
    ensures MemberPods(o, s + [i]) == MemberPods(o, s) + [MemberPod(o, i)]
  {
    assert |MemberPods(o, s + [i])| == |s| + 1;
  }

  ghost predicate AddedMembers(o: Cluster, before: seq<Pod>, after: seq<Pod>, n: nat) {
    exists planned: seq<nat>, lowest: int, c: seq<nat>
      {:trigger PlannedFrom(before, o.namespace, o.name, o.spec.size as int, n, planned, lowest), MemberPods(o, c)} ::
      && PlannedFrom(before, o.namespace, o.name, o.spec.size as int, n, planned, lowest)
      && StrictlyDecreasing(c) && |c| <= |planned|
      && (forall x :: x in c ==> x in planned)
      && (forall x :: x in c ==> !HasPod(before, o.namespace, PodName(o.name, x)))
      && after == before + MemberPods(o, c)
  }

  lemma AddedBy(o: Cluster, before: seq<Pod>, after: seq<Pod>, n: nat, planned: seq<nat>, lowest: int, c: seq<nat>)
    requires PlannedFrom(before, o.namespace, o.name, o.spec.size as int, n, planned, lowest)
    requires StrictlyDecreasing(c) && |c| <= |planned|
    requires forall x :: x in c ==> x in planned
    requires forall x :: x in c ==> !HasPod(before, o.namespace, PodName(o.name, x))
    requires after == before + MemberPods(o, c)
    ensures AddedMembers(o, before, after, n)
  {
  }

  /** What carrying out `a` does to the API's pods; every branch returns nil. */
  ghost predicate Effect(o: Cluster, before: seq<Pod>, after: seq<Pod>, a: Action, err: Option<ApiError>) {
    && err.None?
    && match a
       case NoAction => after == before
       case CreateMissing(k) => AddedMembers(o, before, after, k)
       case CreateBootstrap =>
         && (after == before || after == before + [BootstrapPod(o)])
         && (HasPod(before, o.namespace, o.name + "-1") ==> after == before)
  }

  // ---------------------------------------------------------------------
  // The handler and its cache

  class Handler {
    /** The clusters seen so far, by UID. */
    var clusters: map<string, Cluster>
    const api: PodApi

    /** `NewHandler`: an empty cache. */
    constructor (api: PodApi)
      ensures clusters == map[] && this.api == api
    {
      clusters := map[];
      this.api := api;
    }

    /** `createBootstrapPod`: submits `<name>-1` with the bootstrap command;
        "already exists" counts as success. */
    method CreateBootstrapPod(o: Cluster) returns (err: Option<ApiError>)
      modifies api
      ensures api.pods == old(api.pods) || api.pods == old(api.pods) + [BootstrapPod(o)]
      ensures err.None? && api.pods == old(api.pods) ==> HasPod(old(api.pods), o.namespace, o.name + "-1")
      ensures err.Some? ==> api.pods == old(api.pods) && err != Some(AlreadyExists)
      ensures HasPod(old(api.pods), o.namespace, o.name + "-1") ==> err.None? && api.pods == old(api.pods)
      ensures !HasPod(old(api.pods), o.namespace, o.name + "-1") && err.None? ==> api.pods == old(api.pods) + [BootstrapPod(o)]
    {
      var e := api.Create(BootstrapPod(o));
      if e.Some? && e != Some(AlreadyExists) {
        return e;
      }
      return None;
    }

    /** The second loop of `createMissingPods`: submits the member pod of
        each planned index in order, going on past every failure.
        `created` are the indices the API accepted. */
    method SubmitPods(o: Cluster, indices: seq<nat>) returns (ghost created: seq<nat>)
      requires StrictlyDecreasing(indices)
      modifies api
      ensures StrictlyDecreasing(created) && |created| <= |indices|
      ensures forall x :: x in created ==> x in indices
      ensures api.pods == old(api.pods) + MemberPods(o, created)
      ensures forall x :: x in created ==> !HasPod(old(api.pods), o.namespace, PodName(o.name, x))
    {
      created := [];
      for k := 0 to |indices|
        invariant api.pods == old(api.pods) + MemberPods(o, created)
        invariant StrictlyDecreasing(created) && |created| <= k
        invariant forall x :: x in created ==> x in indices[..k]
        invariant forall x :: x in created ==> !HasPod(old(api.pods), o.namespace, PodName(o.name, x))
      {
        var pod := MemberPod(o, indices[k]);
        var e := api.Create(pod);
        if e.None? {
          HasPodPrefix(old(api.pods), MemberPods(o, created), o.namespace, PodName(o.name, indices[k]));
          assert forall x :: x in created ==> x > indices[k];
          AppendLower(created, indices[k]);
          MemberPodsAppend(o, created, indices[k]);
          created := created + [indices[k]];
        }
      }
      assert indices[..|indices|] == indices;
    }

    /** `createMissingPods`: plans up to n missing indices from Size down,
        then submits their pods; the result is always nil. */
    method CreateMissingPods(o: Cluster, n: nat)
      returns (err: Option<ApiError>, ghost planned: seq<nat>, ghost created: seq<nat>, ghost lowest: int)
      modifies api
      ensures err.None?
      ensures PlannedFrom(old(api.pods), o.namespace, o.name, o.spec.size as int, n, planned, lowest)
      ensures StrictlyDecreasing(created) && |created| <= |planned|
      ensures forall x :: x in created ==> x in planned
      ensures api.pods == old(api.pods) + MemberPods(o, created)
      ensures forall x :: x in created ==> !HasPod(old(api.pods), o.namespace, PodName(o.name, x))
    {
      var indices;
      indices, lowest := PlanMissingPods(api, o.namespace, o.name, o.spec.size as int, n);
      planned := indices;
      created := SubmitPods(o, indices);
      err := None;
    }

    /** The branches of `Handle` after the listing. A failed bootstrap
        creation is only logged. */
    method Dispatch(o: Cluster, listed: nat, seen: bool) returns (err: Option<ApiError>)
      modifies api
      ensures Effect(o, old(api.pods), api.pods, Decide(o, seen, listed), err)
    {
      var n := o.spec.size as int - listed;
      if n <= 0 {
        err := None;
      } else if !seen {
        assert Decide(o, seen, listed) == CreateBootstrap;
        var e := CreateBootstrapPod(o);
        err := None;
      } else {
        ghost var planned, created, lowest;
        err, planned, created, lowest := CreateMissingPods(o, n);
        AddedBy(o, old(api.pods), api.pods, n, planned, lowest, created);
      }
    }

    /** `Handle`: a declaration being deleted is dropped from the cache;
        any other is cached under its UID after the pass, also when the
        listing fails, and pods are added as `Decide` says. `action` is
        the branch taken, if any. */
    method Handle(o: Cluster) returns (err: Option<ApiError>, ghost action: Option<Action>)
      modifies this, api
      ensures o.deleting ==> clusters == old(clusters) - {o.uid} && api.pods == old(api.pods) && err.None?
      ensures o.deleting ==> action.None?
      ensures !o.deleting ==> clusters == old(clusters)[o.uid := o]
      ensures !o.deleting && action.None? ==> err.Some? && api.pods == old(api.pods)
      ensures action.Some? ==> action.value == Decide(o, o.uid in old(clusters), |ListedFor(old(api.pods), o)|)
      ensures action.Some? ==> Effect(o, old(api.pods), api.pods, action.value, err)
    {
      if o.deleting {
        clusters := clusters - {o.uid};
        return None, None;
      }
      var listed := api.List(o.namespace, o.name);
      if listed.Err? {
        clusters := clusters[o.uid := o];
        return Some(listed.error), None;
      }
      action := Some(Decide(o, o.uid in clusters, |listed.value|));
      err := Dispatch(o, |listed.value|, o.uid in clusters);
      clusters := clusters[o.uid := o];
    }
  }
}

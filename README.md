# NATS Streaming operator — a Dafny model

The NATS Streaming operator watches `NatsStreamingCluster` declarations in
Kubernetes. For each one it keeps a set of `nats-streaming-server` pods
named `<cluster>-1 … <cluster>-<Size>`. The repository holds three
generations of this logic. Each is modelled as its own module:

- `OperatorController` (`controller.dfy`) models the current controller
  (internal/operator/controller.go):
  - the server command line a pod runs, built from the store kind, the
    fault-tolerance (FT) group, the store directory, the clustering
    condition, the diagnostic flags and the config file;
  - pod assembly from the optional pod template;
  - the reconcile decision: clamp the size, compare it with the running
    pods, then shrink, create the missing pods, or create only the
    bootstrap pod for a cluster not seen before;
  - the cache of seen clusters, kept by `processAdd`, `processUpdate` and
    `processDelete`;
  - the create and delete loops.
- `OperatorHandler` (`handler.dfy`) models the second generation
  (internal/operator/handler.go). It has one fixed ten-argument command,
  always appends the bootstrap flag, does not clamp, and has no SQL or FT
  handling.
- `StubHandler` (`stub.dfy`) models the first generation
  (pkg/stub/handler.go). Its commands are literal, with the bootstrap flag
  in the middle. It uses the declared image as given, counts every listed
  pod, never shrinks, and swallows the bootstrap creation error.

Shared modules:

- `Kube` (`kube.dfy`) holds the pod objects and the label selector. It
  also holds `PodApi`, an abstract API server that keeps the pods as a
  sequence in listing order. Every `List`, `Get`, `Create` and `Delete`
  may fail for reasons the operator cannot see; the model leaves the
  outcome open with a nondeterministic choice. Create reports "already
  exists" for a taken name, and Delete reports "not found" for a missing
  pod. Two loops are shared and defined here once:
  - the running-pod filter `findRunningPods`, which is the same in
    controller.go:560-573 and handler.go:252-265; the first generation has
    no such filter and counts every listed pod;
  - the first loop of `createMissingPods`, a downward scan for free
    indices, which is the same in all three generations.
- `ClusterV1alpha1` (`legacy.dfy`) holds the declaration type the two
  earlier generations read.
- `Decimal` (`decimal.dfy`) holds Go's `%d`. Its round trip makes two pod
  names of one cluster equal only when their indices are.
- `ServerArgs` (`serverargs.dfy`) holds a strict reader of server command
  lines:
  - every argument after the binary is a known flag or its value;
  - a flag given twice is refused.

  The model states what each generated command configures by reading it
  back into an `Options` record. That one statement gives the following:
  - each flag appears only when its condition holds;
  - each flag appears at most once;
  - each flag carries the right value;
  - no argument is left unaccounted for.

In every pass:

- the declaration and the cache are plain values;
- pod-changing methods say exactly how the API's pod sequence changes;
- ghost outputs name the indices planned, created and deleted.

Two details of the code that the model keeps as written:

- `reconcile` lists the running pods before it clamps the size. A listing
  error therefore returns before the clamp, and `processAdd` and
  `processUpdate` then cache the declaration with its size unclamped.
- The comment at controller.go:322-323 (and handler.go:96-97) says that
  when no other nodes are available a pod with the bootstrap flag is
  created. The test under it, `n == 0` at controller.go:324 and
  handler.go:98, sits inside the `n < 0` branch, so it never holds. A
  known cluster with a deficit always gets `createMissingPods`, so its
  pods use the follower command.

## Model

The command and pod builders only compute (`StanContainerCmd` and
`StanContainerBootstrapCmd` of the two operator generations, the stub's
`FollowerCmd` and `BootstrapCmd`, and `BootstrapPod` and `MemberPod` of
each generation). Their rows are the lemmas that state what they build:
the `CommandReadsBack`, `BootstrapCommandReadsBack` and layout lemmas for
the commands, and `SubmittedPods` for the pods.

| member | source | states |
|---|---|---|
| Kube.PodNameInjective | internal/operator/controller.go:464 | two pod names `<cluster>-<i>` of one cluster are equal exactly when their indices are |
| Kube.Selected | internal/operator/controller.go:549-558 | the label-selector listing holds exactly the pods of the namespace labelled `app=nats-streaming` and `stan_cluster=<name>`, as a subsequence of the stored order |
| Kube.Running | internal/operator/controller.go:566-571 | the running pods are exactly the listed pods without a deletion timestamp, kept in order |
| Kube.RunningAppend | internal/operator/controller.go:566-571 | filtering a concatenation filters each part, so a pod-by-pod filtering loop computes the filter |
| Kube.WithoutTwice | internal/operator/controller.go:497-508 | deleting pods one after another leaves what deleting them all at once leaves |
| Kube.PodApi.List | internal/operator/controller.go:549-558 | a successful listing returns exactly the selected pods in stored order |
| Kube.PodApi.Get | internal/operator/controller.go:465-467 | a successful Get means a pod of that name exists in the namespace |
| Kube.PodApi.Create | internal/operator/controller.go:347-351 | a taken name fails with "already exists"; success appends the pod; any failure changes nothing |
| Kube.PodApi.Delete | internal/operator/controller.go:503-507 | success means the named pod existed and is now removed; a missing pod gives "not found"; failure changes nothing |
| Kube.FindRunningPods | internal/operator/controller.go:560-573 | on success the result is exactly the running pods of the cluster in listing order; handler.go:252-265 is the same loop |
| Kube.DeleteListed | internal/operator/controller.go:502-507 | one step of the shrink loop: deleting listed position i either succeeds and adds i to the deleted positions, or fails and changes nothing; the API always holds the stored pods less those at the deleted positions. The same step is handler.go:195-200 |
| Kube.PlanMissingPods | internal/operator/controller.go:460-481 | at most n indices, distinct and strictly decreasing, all in 1..Size; every index skipped above the stopping point names an existing pod; the scan stops only at n indices or below 1. The same loop is handler.go:160-174 and pkg/stub/handler.go:118-139 |
| ServerArgs.ParseFromConcat | internal/operator/controller.go:426 | reading a command in two parts gives what reading it whole gives, which lets the command be checked argument group by argument group |
| OperatorController.DiagArgs | internal/operator/controller.go:428-439 | `-SD`, `-SV` and `--cluster_raft_logging` each appear exactly when their setting is on in a non-nil Config, in that order, and nothing else appears |
| OperatorController.CommandReadsBack | internal/operator/controller.go:376-446 | a follower's command reads back as exactly the intended settings. SQL and MEMORY give only the store kind, never `-clustered`, a node id or `-dir`. The file store gives `-clustered` with `--cluster_node_id="<pod>"` exactly when Config is set, (Size > 1 or Clustered) and there is no FT group. It gives one `-dir`: `<dir>/<name>-1` plus `--ft_group` in FT mode, `<dir>/<pod>` plus `--cluster_log_path <dir>/raft/<pod>` otherwise, or `store` when there is no store dir. Diagnostics and `-sc` follow their settings, each flag is given once, and there is no bootstrap flag |
| OperatorController.BootstrapCommandReadsBack | internal/operator/controller.go:448-457 | the bootstrap command is the follower command itself when Size = 1, and the follower command with one trailing `-cluster_bootstrap` otherwise; it reads back as the follower's settings with the bootstrap flag set exactly when Size ≠ 1 |
| OperatorController.CommandLayout | internal/operator/controller.go:377-443 | the command is the fixed head (binary, `-cluster_id`, `-nats_server nats://<svc>:4222`, `-m 8222`), then the store arguments, then the diagnostic flags and `-sc` |
| OperatorController.StoreLayout | internal/operator/controller.go:384-425 | the exact store arguments for SQL, MEMORY and the file store; `-dir` and its companion come after the clustering flags, in each of the three store-directory shapes |
| OperatorController.FtDirShared | internal/operator/controller.go:409-415 | in FT mode with a store dir, every pod of the cluster uses `<dir>/<name>-1` and has neither a Raft log path nor a node id |
| OperatorController.NewStanPod | internal/operator/controller.go:513-547 | the namespace is the cluster's; `app` and `stan_cluster` are set, and every other template label is kept; name, annotations, containers and volumes come from the template; RestartPolicy is `OnFailure` only where the template left it empty |
| OperatorController.StanContainer | internal/operator/controller.go:356-374 | the container is the template's first one or an empty one, named `stan`; its image is Spec.Image, else the template's image, else the default, so never empty |
| OperatorController.WithStanContainer | internal/operator/controller.go:340-345 | the container replaces slot 0, or is the sole container; other containers, metadata and spec fields are kept |
| OperatorController.SubmittedPods | internal/operator/controller.go:333-345 | a member pod is `<name>-i`, selected by the listing, and runs a `stan` container whose command reads back with no bootstrap flag; the bootstrap pod is `<name>-1` and bootstraps exactly when Size ≠ 1 |
| OperatorController.Clamped | internal/operator/controller.go:294-296 | Size becomes exactly 1 for SQL and for a declared Size < 1; a non-SQL Size ≥ 1 is left as declared; nothing else changes |
| OperatorController.Decide | internal/operator/controller.go:298-330 | no action iff running = Size; shrink by running − Size iff running > Size; only the bootstrap pod iff there is a deficit, no SQL, no FT and an unseen UID; create-missing of Size − running iff there is a deficit and (SQL or FT or a seen UID) |
| OperatorController.ThreeNodeScenario | internal/operator/controller.go:298-330 | a three-node file-store cluster with no Config: the first pass on no pods bootstraps, the second with one pod creates two followers, the third does nothing; pod 1 bootstraps and pod 2 does not |
| OperatorController.SecondPassPlan | internal/operator/controller.go:459-481 | in the second pass of that scenario, with only `<name>-1` stored, every plan `createMissingPods` can make for a deficit of two is `<name>-3` then `<name>-2`, so the pods it creates are among these two |
| OperatorController.SqlClamp | internal/operator/controller.go:294-310 | a SQL declaration of any Size is reconciled to one pod |
| OperatorController.Controller.constructor | internal/operator/controller.go:71-79 | the cache starts empty |
| OperatorController.Controller.CreateBootstrapPod | internal/operator/controller.go:333-354 | an existing `<name>-1` gives nil and leaves the pods unchanged ("already exists" is success); otherwise nil means the API gained exactly the bootstrap pod, and any other error leaves the pods unchanged and is returned |
| OperatorController.Controller.SubmitPods | internal/operator/controller.go:483-490 | the pods of the planned indices are submitted in order, and failing ones are skipped; the API gains exactly the member pods of the accepted indices, still strictly decreasing; an index whose name was already taken is never created |
| OperatorController.Controller.CreateMissingPods | internal/operator/controller.go:459-492 | at most n new pods, with distinct indices in 1..Size highest first; every skipped index above the stopping point already had a pod; the API gains exactly the member pods of the indices it accepted, none of whose names was taken before; the result is always nil |
| OperatorController.Controller.ShrinkCluster | internal/operator/controller.go:494-511 | positions are tried from the end down to 1, so position 0 is never deleted; at most min(delta, len−1) pods are deleted; the loop stops once delta deletions succeeded; the API loses exactly the pods deleted; the result is always nil because the inner `err :=` shadows the returned one |
| OperatorController.Controller.Dispatch | internal/operator/controller.go:298-330 | the action `Decide` picks is carried out with that action's effect on the pods and its result: for create-missing, the pods created are accepted indices of a plan the scan of `createMissingPods` can make over the stored pods, none of them taken before; for the bootstrap pod, "already exists" is success with no change |
| OperatorController.Controller.Reconcile | internal/operator/controller.go:289-331 | a listing error is returned before the clamp, with no pod action; otherwise the declaration is clamped in place, and the action `Decide` picks from the cache and the running count is carried out, with the effect stated for Dispatch |
| OperatorController.Controller.ProcessAdd | internal/operator/controller.go:233-255 | a declaration being deleted leaves its UID absent with no pod action; otherwise, after the pass, the UID maps to the processed declaration, even when reconcile failed, and the Size is clamped whenever the listing succeeded |
| OperatorController.Controller.ProcessUpdate | internal/operator/controller.go:257-280 | the same transitions for the new version; the old version is ignored |
| OperatorController.Controller.ProcessDelete | internal/operator/controller.go:282-287 | returns nil and changes nothing |
| OperatorHandler.CommandReadsBack | internal/operator/handler.go:143-150 | the follower command has ten arguments and reads back as a clustered file store in `store`, with the cluster id and NATS URL, and no bootstrap flag |
| OperatorHandler.BootstrapCommandReadsBack | internal/operator/handler.go:152-156 | the bootstrap command is the follower command plus one trailing `-cluster_bootstrap`, for every Size including 1 |
| OperatorHandler.NewStanPod | internal/operator/handler.go:206-231 | exactly the two operator labels, the cluster's namespace, and RestartPolicy `Never` with no containers or volumes |
| OperatorHandler.StanContainer | internal/operator/handler.go:129-141 | named `stan`, with the declared volume mounts; the image is Spec.Image, else the default |
| OperatorHandler.SubmittedPods | internal/operator/handler.go:108-124 | both pod kinds have exactly one `stan` container; only the bootstrap pod carries Spec.Volume and reads back with the bootstrap flag; member pods are `<name>-i` with no volumes |
| OperatorHandler.Decide | internal/operator/handler.go:76-103 | with no clamp: no action iff running = Size; shrink iff running > Size; bootstrap only iff there is a deficit and an unseen UID; create-missing of the deficit iff there is a deficit and a seen UID |
| OperatorHandler.Handler.constructor | internal/operator/handler.go:32-36 | the cache starts empty |
| OperatorHandler.Handler.CreateBootstrapPod | internal/operator/handler.go:108-124 | an existing `<name>-1` gives nil and leaves the pods unchanged ("already exists" is success); otherwise nil means the API gained exactly the bootstrap pod, and any other error leaves the pods unchanged and is returned |
| OperatorHandler.Handler.SubmitPods | internal/operator/handler.go:176-183 | failing pods are skipped; the API gains exactly the member pods of the accepted indices, none of whose names was already taken |
| OperatorHandler.Handler.CreateMissingPods | internal/operator/handler.go:158-185 | at most n new pods with distinct indices in 1..Size, highest first, skipping existing names; the API gains exactly the member pods of the accepted indices, none of whose names was taken before; the result is always nil |
| OperatorHandler.Handler.ShrinkCluster | internal/operator/handler.go:187-204 | position 0 is never deleted; at most min(delta, len−1) pods are deleted; the loop stops at delta; an error comes back exactly when len ≥ 2, fewer than delta were deleted, and the last attempt (position 1) failed |
| OperatorHandler.Handler.Dispatch | internal/operator/handler.go:76-103 | the action `Decide` picks is carried out with that action's effect and result: a shrink errs exactly when there were at least two pods, fewer than the surplus went and position 1 was not deleted; for create-missing, the pods created are accepted indices of a plan the scan of `createMissingPods` can make over the stored pods, none of them taken before; for the bootstrap pod, "already exists" is success with no change |
| OperatorHandler.Handler.Handle | internal/operator/handler.go:46-106 | a deleted declaration removes its UID with no pod action; otherwise the UID maps to the declaration after the pass, also when the listing fails, and the action `Decide` picks is carried out, with the effect stated for Dispatch |
| StubHandler.FollowerCommandReadsBack | pkg/stub/handler.go:131-135 | the follower command reads back as a clustered file store in `store`, with the cluster id and NATS URL, and no bootstrap flag |
| StubHandler.BootstrapCommandReadsBack | pkg/stub/handler.go:97-102 | the bootstrap command reads back as the follower settings plus the bootstrap flag, given once |
| StubHandler.BootstrapCommandLayout | pkg/stub/handler.go:97-102 | the bootstrap command has eleven arguments and is the follower command with `-cluster_bootstrap` inserted between `-cluster_id <name>` and `-nats_server` |
| StubHandler.NewStanPod | pkg/stub/handler.go:153-176 | exactly the two operator labels, the cluster's namespace, and an empty spec |
| StubHandler.SubmittedPods | pkg/stub/handler.go:89-151 | every submitted pod has one `stan` container running Spec.Image verbatim, with no default; only `<name>-1` bootstraps |
| StubHandler.Decide | pkg/stub/handler.go:62-84 | the deficit counts every listed pod, terminating ones included; no action iff listed ≥ Size, so a surplus is never removed; bootstrap only iff there is a deficit and an unseen UID; create-missing of the deficit iff there is a deficit and a seen UID |
| StubHandler.Handler.constructor | pkg/stub/handler.go:19-23 | the cache starts empty |
| StubHandler.Handler.CreateBootstrapPod | pkg/stub/handler.go:89-114 | an existing `<name>-1` leaves the pods unchanged with no error ("already exists" is success); otherwise the API gains exactly the bootstrap pod when no error comes back, and any other error leaves the pods unchanged and is returned |
| StubHandler.Handler.SubmitPods | pkg/stub/handler.go:141-148 | failing pods are skipped; the API gains exactly the member pods of the accepted indices, none of whose names was already taken |
| StubHandler.Handler.CreateMissingPods | pkg/stub/handler.go:116-151 | at most n new pods with distinct indices in 1..Size, highest first, skipping existing names; the API gains exactly the member pods of the accepted indices, none of whose names was taken before; the result is always nil |
| StubHandler.Handler.Dispatch | pkg/stub/handler.go:62-84 | every branch returns nil, including a failed bootstrap creation |
| StubHandler.Handler.Handle | pkg/stub/handler.go:33-87 | a deleted declaration removes its UID with no pod action; otherwise the UID maps to the declaration after the pass, also when the listing fails; a listing error is returned, and the action `Decide` picks from all listed pods is carried out: for create-missing, the pods created are accepted indices of a plan the scan of `createMissingPods` can make over the stored pods, none of them taken before; an existing `<name>-1` is left alone |

## Left out

- Client setup, the informer and the run loop are left out: `SetupClients`, `SetupSignalHandler`, `NewInformer`, `Run` and `Shutdown`. They are Kubernetes client construction, OS signals, goroutines and context cancellation.
- Mutexes and the unlocked cache reads are left out. The model handles one notification at a time and reads and writes the cache as a plain map.
- The Kubernetes API is abstract. The pods sit in one sequence, and each call's failure is left open. Listing matches the namespace exactly. The empty "all namespaces" value, owner references, TypeMeta, DeepCopy and logging are not modelled.
- Kube.PodApi.Delete: a successful delete removes the pod from the stored sequence at once. The API server deletes a pod gracefully: it marks the pod terminating and keeps listing it, with its name still taken, until it is gone. In the model, terminating pods therefore come only from the initial state, and the shrink contracts state the pods that remain rather than the pods being marked.
- OperatorController.ClusteringArgs: `--cluster_node_id=%q` is modelled as the name between double quotes. This assumes DNS-label pod names, which need no escaping.
- The dead `n == 0` branch inside the deficit case (controller.go:324-326, handler.go:98-100) is not modelled.
- StubHandler.BootstrapCommandReadsBack: "the flag appears once" is stated as the command reading back with the bootstrap flag set. A cluster literally named `-cluster_bootstrap` would put that string in the list a second time, as the value of `-cluster_id`.
- `MonitoringPort` is modelled as the constant 8222 (controller.dfy:38).
- cmd/nats-streaming-operator/main.go is not part of this model. It is command-line and logging setup.
- The cluster declaration of the current controller is taken from the fields controller.go reads. The older declaration file lacks several of them.
- test/operator/basic_test.go is not part of this model. It runs against a live cluster, and one of its expected command lines does not match controller.go:399-420.

# kubetree in Dafny

kubetree lists the resources of a Kubernetes cluster and prints them as an indented
ownership tree. It starts from a synthetic `kubernetes` root. Namespaces hang under the
root. Deployments, replica sets, stateful sets, daemon sets and pods hang under their
owners, or under their namespace when no owner is indexed. A mounted claim hangs under the
pod that mounts it, and a bound volume under its claim. Each line shows an element's title
and, when it has one, ` -- ` followed by a health description. The element's state (OK,
Warning, Critical) only chooses its colour.

This project models the core of `kubetree.go`:

- **The element arena and the lookup index.** `Forest.Graph` holds every element in a
  sequence (the root is position 0) and the two-level index kind → key → element.
  `Forest.WellFormed` is the invariant every stage keeps.
- **Parent resolution.** `parents` is `Forest.CandidateParents`. Each add loop creates the
  element with `parent = parents[0]` and enters it in the children of every candidate.
- **The per-kind health rules** of module `Health`. Go's `%d` formatting is modelled as
  `Base.DecimalString`, and `Base.DecimalRoundTrip` proves it can be read back.
- **Cross-linking.**
  - Label selection is `Forest.PodsWithLabels`.
  - `controllerOf` is `Forest.Controller`.
  - Service, claim and volume attachment are `Forest.ServiceStep`, `Forest.PodStep` and
    `Forest.VolumeStep`.
- **The build.** `Build.BuildGraph` runs the stages in the source's fixed order.
  `Shape.BuildGraphShaped` proves the consequence of that order: no service is ever
  attached, neither given a parent nor entered in any element's children, because
  services are added while the pod table is still empty.
- **The renderer.** `printTree` with `ElementSort.Less` is `Text.Render` over a trace
  `Text.Visit`. `Text.Conforms` says which traces a run can produce.

The builder itself is the class `Tree.Kubetree`. Its fields `nodes` and `lookup` are
updated in place by one method per `add*` function and loop. Each method is proved to leave
exactly the graph the matching function of `Forest` or `Build` describes. `Tree.Run` is
`New` followed by `kubetree`: it returns the text, or the error with which the source
would panic.

Facts about the code that the model keeps:

- An element's `parent` is the first candidate, `parents[0]` (kubetree.go:273, 310, 339,
  371, 428).
- A selector matches a pod when any one of its keys matches, and the pod is entered once
  per matching key (kubetree.go:567-572).
- `controllerOf` climbs while the parent is of a controller kind, so it stops at the last
  controller-kind ancestor, or at the pod itself (kubetree.go:582-587).
- A load balancer's description is the last address found in its ingress list.
- A succeeded pod keeps state OK.
- The Warning branch of the Deployment and ReplicaSet rules is dead.
- `Less(Service, Service)` is true, and siblings of one kind come out in no guaranteed
  order: the children map is iterated in Go's map order and `sort.Sort` is not stable.
- Children links can form a cycle (a pod owned by the claim it mounts), on which
  `printTree` does not terminate.
- A claim's child key under its pod is `namespace/claim`.
- A namespace's child key under the root is its bare name.

Files: `base.dfy` (Option/Result, decimal strings, string order), `kinds.dfy`,
`records.dfy`, `health.dfy`, `forest.dfy` (graph and one-record steps), `build.dfy`
(stages as folds), `render.dfy` (module `Text`), `shape.dfy`, `scenarios.dfy` (whole runs,
including the two cases of `kubetree_test.go`), `tree.dfy` (the imperative builder and
printer).

## Model

| member | source | states |
|---|---|---|
| Base.DecimalRoundTrip | kubetree.go:291 | the `%d` text of any integer counter parses back to that counter |
| Base.DecimalStringInjective | kubetree.go:377 | two counters with the same printed text are equal |
| Base.StrLessIrreflexive | kubetree.go:505 | no kind name is `<` itself |
| Base.StrLessTransitive | kubetree.go:505 | Go's string `<` is transitive |
| Base.StrLessTotal | kubetree.go:505 | any two distinct strings are ordered one way by `<` |
| Kinds.KindOf | kubetree.go:549 | an owner-reference kind string is read as the kind bearing that name, or as none |
| Kinds.KindOfName | kubetree.go:103-113 | every kind's name reads back as that kind |
| Kinds.KindNameInjective | kubetree.go:103-113 | distinct kinds have distinct kind strings |
| Kinds.ServiceLessService | kubetree.go:499-501 | `Less` holds between two services both ways, so it is not a strict weak order |
| Kinds.LessStrictOffServices | kubetree.go:502-506 | away from services, `Less` is irreflexive, transitive and total on distinct kinds |
| Kinds.LessDecidesKindLE | kubetree.go:499-507 | `Less` holding puts the pair in services-first, ascending-kind order, and failing puts it in the reverse order |
| Kinds.KindLETransitive | kubetree.go:499-507 | the services-first, ascending-kind order is transitive |
| Health.DeploymentHealth | kubetree.go:373-384 | Critical iff available or updated is below the replicas, OK otherwise (never Warning); desc `a/m av, u/m up to date` |
| Health.ReplicaSetHealth | kubetree.go:341-352 | Critical iff available or ready is below the replicas, OK otherwise (never Warning); desc `a/m up, r/m rdy` |
| Health.StatefulSetHealth | kubetree.go:312-320 | Critical iff current or ready is below the replicas, OK otherwise; desc `c/m repl, r/m rdy` |
| Health.MisscheduledSuffix | kubetree.go:280-285 | the misscheduled suffix is empty iff the count is zero |
| Health.DaemonSetHealth | kubetree.go:275-291 | Critical iff misscheduled is positive or current or ready is below desired; desc `c/m up, r/m pods up` plus the suffix |
| Health.CountReady | kubetree.go:433-435 | the ready count is at most the number of statuses, and equal to it iff every container is ready |
| Health.CountRunning | kubetree.go:436-438 | the running count is at most the number of statuses, and equal to it iff every container is running |
| Health.CountContainers | kubetree.go:430-439 | the loop yields the ready and running counts and the total, with ready and running at most the total |
| Health.PodHealth | kubetree.go:441-456 | Running: Critical iff a count differs from the total; Pending: Warning; Failed: Critical; Succeeded and other phases: OK; desc with the phase suffix |
| Health.RunningPodCritical | kubetree.go:443-447 | a running pod is Critical iff some container is not ready or not running |
| Health.ClaimHealth | kubetree.go:249-257 | Pending iff Warning `pending`, Lost iff Critical `lost`, Bound or another phase iff OK with no desc |
| Health.VolumeHealth | kubetree.go:214-224 | Warning iff Pending or Released, Critical iff Failed, OK iff the desc is empty; descs `pending`, `released`, `failed`, and OK with an empty desc for every other phase |
| Health.LastAddress | kubetree.go:176-186 | an address is found iff some ingress entry has an IP or a hostname, and a found address is non-empty |
| Health.LastAddressSource | kubetree.go:177-186 | the found address is the hostname (else the IP) of the last entry that has one, and every later entry is empty |
| Health.IngressAddress | kubetree.go:176-186 | the ingress loop finds an address iff LastAddress does, leaves that address, and leaves "" when it finds none |
| Health.ServiceHealth | kubetree.go:174-191 | non-LoadBalancer: OK with no desc; LoadBalancer without an address: Warning `pending`; otherwise OK with the address |
| Health.HealthyDeployment | kubetree.go:373-384 | three of three replicas available and updated is OK `3/3 av, 3/3 up to date` |
| Health.DownDeployment | kubetree.go:373-384 | zero of three available is Critical `0/3 av, 0/3 up to date` |
| Health.PendingLoadBalancer | kubetree.go:187-190 | a load balancer without ingress entries is Warning `pending` |
| Forest.NewElement | kubetree.go:477-487 | a new element has no children and the given kind, title, parent, state and desc |
| Forest.Initial | kubetree.go:100-122 | the builder starts well formed, with the nine tables empty and the cluster root as its only element: named and titled `kubernetes`, with no state, no parent and no children |
| Forest.RegisterEffect | kubetree.go:386 | filing an element adds exactly one index entry and changes no other entry |
| Forest.ResolveOwner | kubetree.go:549-553 | a resolved owner is an existing element |
| Forest.ResolveOwners | kubetree.go:547-554 | at most one element per owner reference, none iff no reference resolves, all in range |
| Forest.ResolveOwnersMembers | kubetree.go:548-554 | an element is among the resolved owners iff some owner reference resolves to it |
| Forest.ResolveOwnersSound | kubetree.go:548-554 | every resolved owner comes from a reference that resolves to it |
| Forest.ResolveOwnersComplete | kubetree.go:548-554 | every reference that resolves contributes its element |
| Forest.CandidateParents | kubetree.go:541-561 | a successful result is non-empty and in range; it fails, with MissingNamespace, iff the namespace is set, has no element and no owner resolves |
| Forest.CandidateParentsCases | kubetree.go:541-561 | the root for a cluster-scoped object, the namespace element when no owner resolves, otherwise exactly the resolved owners |
| Forest.UntrackedOwner | kubetree.go:549 | an owner reference of a kind without a table never resolves |
| Forest.AttachAll | kubetree.go:387-389 | exactly the candidates gain the child key; every other element is unchanged |
| Forest.Append | kubetree.go:386 | appending and filing a fresh element keeps the graph well formed |
| Forest.Attach | kubetree.go:387-389 | inserting a child under every candidate keeps the graph well formed and the index unchanged |
| Forest.WorkloadStep | kubetree.go:370-389 | a workload record succeeds iff parents does; the element gets parent `parents[0]`, enters every candidate's children under its title and is filed under `namespace/name` |
| Forest.NamespaceStep | kubetree.go:410-415 | a namespace becomes a stateless element under the root, keyed by its bare name and filed under it |
| Forest.ClaimStep | kubetree.go:244-260 | a claim becomes a parentless element with the claim rule's health, filed under `namespace/name` |
| Forest.BoundClaim | kubetree.go:227-229 | a volume attaches iff it is Bound and its claim reference has kind PersistentVolumeClaim and names an indexed claim; Bound without a reference fails |
| Forest.VolumeStep | kubetree.go:209-233 | a volume element is filed under its bare name and becomes child `pv/<name>` of its bound claim if any; it fails iff BoundClaim does |
| Forest.ClaimLinks | kubetree.go:458-466 | the links are exactly the indexed claims the pod's volumes name, keyed `namespace/claim` |
| Forest.LinkClaim | kubetree.go:461-464 | one link sets the claim's parent to the pod and adds the claim to the pod's children, changing nothing else |
| Forest.LinkClaims | kubetree.go:458-466 | the volume loop keeps the number of elements |
| Forest.LinkClaimsEffect | kubetree.go:458-466 | the pod gains exactly the claim links, each linked claim's parent becomes the pod (the last pod wins), nothing else changes |
| Forest.WithClaims | kubetree.go:458-466 | linking a fresh pod's claims keeps the graph well formed and the index unchanged |
| Forest.PodStep | kubetree.go:425-471 | a pod record succeeds iff parents does; the element links its claims, then enters every candidate's children under `po/<name>`, and is filed under `namespace/name` |
| Forest.Repeat | kubetree.go:567-572 | a pod is entered once per matching key, as n copies of itself |
| Forest.PodsWithLabels | kubetree.go:563-580 | the selection holds only existing pod elements |
| Forest.PodsWithLabelsMembers | kubetree.go:564-573 | a pod is selected iff it is visited, has labels, lives in the namespace and matches at least one selector key |
| Forest.PodsWithLabelsEmpty | kubetree.go:567 | an empty selector, or an empty pod table, selects nothing |
| Forest.Controller | kubetree.go:582-587 | the result is the argument or of a controller kind, and its parent is absent or not of a controller kind |
| Forest.ControllerIsAncestor | kubetree.go:582-587 | the result is reached from the argument by climbing parent links whose every target is of a controller kind; with the ensures of Controller, it is the top of that climb |
| Forest.ControllerFrame | kubetree.go:582-587 | controllerOf depends only on kinds and on the parent links of non-service elements |
| Forest.LinkService | kubetree.go:195-198 | linking a service keeps the graph well formed, with the index, the kinds and every other element's parent unchanged, and changes nothing of the service but its parent |
| Forest.HangUnderController | kubetree.go:196-197 | one selected pod hangs the service under that pod's controller, which is older than the service |
| Forest.HangService | kubetree.go:196-197 | the service's parent becomes c and c gains the service as child `svc/<name>`; nothing else changes |
| Forest.LinkServiceParent | kubetree.go:195-196 | after one or more selected pods the service is the element it was, with its parent set to the controller of the last selected pod |
| Forest.LinkServiceChildren | kubetree.go:195-197 | after the loop exactly the controllers of the selected pods have the service as child; nothing else changes |
| Forest.LinkServiceStep | kubetree.go:195-198 | each loop step finds the same controller as before the loop and hangs the service under it |
| Forest.ServiceElement | kubetree.go:172-191 | a service element has kind Service, no parent and no children |
| Forest.ServiceStep | kubetree.go:170-199 | a service is filed under `namespace/name`; with no pod visited it is only appended |
| Build.AddNamespaces | kubetree.go:410-415 | the namespace loop adds one element per record and changes only the Namespace table |
| Build.AddWorkloads | kubetree.go:368-390 | the workload loop adds one element per record and changes only its kind's table; it fails only with MissingNamespace |
| Build.AddClaims | kubetree.go:244-260 | the claim loop adds one element per record and changes only the claim table |
| Build.AddVolumes | kubetree.go:209-234 | the volume loop adds one element per record and changes only the volume table; it fails only with MissingClaimRef |
| Build.AnyUnclaimedExists | kubetree.go:227 | the scan finds an unclaimed bound volume iff the list holds one |
| Build.AddVolumesFails | kubetree.go:227-228 | the volume stage fails iff some record is Bound without a claim reference |
| Build.AddWorkloadsAbort | kubetree.go:368-390 | a workload stage stops at its first failing record |
| Build.AddVolumesAbort | kubetree.go:209-234 | the volume stage stops at its first failing record |
| Build.AddServices | kubetree.go:170-199 | the service loop adds one element per record and changes only the Service table |
| Build.AddPods | kubetree.go:425-472 | the pod loop adds one element per record; it fails only with MissingNamespace |
| Build.AddPodsAbort | kubetree.go:425-472 | the pod stage stops at its first failing record |
| Build.Fetched | kubetree.go:166-169 | a listing succeeds with its records or fails as FetchFailed of its kind |
| Build.Deployments | kubetree.go:373-384 | each Deployment record is read with the Deployment rule |
| Build.ReplicaSets | kubetree.go:341-352 | each ReplicaSet record is read with the ReplicaSet rule |
| Build.StatefulSets | kubetree.go:312-320 | each StatefulSet record is read with the StatefulSet rule |
| Build.DaemonSets | kubetree.go:275-291 | each DaemonSet record is read with the DaemonSet rule |
| Build.AfterNamespaces | kubetree.go:124-126 | after the namespaces the graph is well formed and the pod table is empty |
| Build.AfterDeployments | kubetree.go:128-130 | after the deployments the pod table is still empty |
| Build.AfterReplicaSets | kubetree.go:132-134 | after the replica sets the pod table is still empty |
| Build.AfterStatefulSets | kubetree.go:136-138 | after the stateful sets the pod table is still empty |
| Build.AfterDaemonSets | kubetree.go:140-142 | after the daemon sets the pod table is still empty |
| Build.AfterClaims | kubetree.go:144-146 | after the claims the pod table is still empty |
| Build.AfterVolumes | kubetree.go:148-150 | after the volumes the pod table is still empty |
| Build.NoVisits | kubetree.go:152-156 | one empty pod-table visit per service |
| Build.AfterServices | kubetree.go:152-154 | after the services the pod table is still empty |
| Build.BuildGraph | kubetree.go:117-158 | a successful build is well formed |
| Text.DeepChild | kubetree.go:536-538 | a child that runs out of frames makes its parent run out |
| Text.NotDeep | kubetree.go:536-538 | a call does not run out of frames when no child's call does |
| Text.LeafRender | kubetree.go:523-528 | an element without children prints as its own line alone |
| Text.EnumeratesEmpty | kubetree.go:532-534 | iterating an empty children map visits nothing |
| Text.ServicesFirst | kubetree.go:499-503 | in a printed order a service child never follows a child of another kind |
| Text.LineNewlines | kubetree.go:523-528 | one element's line holds exactly one newline |
| Text.RenderLines | kubetree.go:509-539 | the text holds one line per printTree call |
| Shape.AddNamespacesShaped | kubetree.go:410-415 | namespaces always get a parent |
| Shape.AddWorkloadsShaped | kubetree.go:368-390 | workloads always get a parent, and no service gains one |
| Shape.AddClaimsShaped | kubetree.go:244-260 | adding claims keeps services parentless |
| Shape.AddVolumesShaped | kubetree.go:209-234 | adding volumes keeps services parentless |
| Shape.AddServicesShaped | kubetree.go:170-199 | with the pod table empty, every service is added without a parent |
| Shape.AddPodsShaped | kubetree.go:425-472 | pods always get a parent, and claim links never give a service one |
| Shape.BuildGraphShaped | kubetree.go:152-156 | in every built graph no service has a parent and no element's children map holds a service, so no service is attached; every namespace, workload and pod has a parent |
| Scenarios.NamespacesOnlyBuild | kubetree.go:117-158 | with only namespaces listed, the build is the namespace stage alone |
| Scenarios.EmptyClusterBuild | kubetree.go:121-122 | an empty cluster builds to the root alone |
| Scenarios.EmptyClusterText | kubetree_test.go:20-26 | an empty cluster prints `kubernetes\n` |
| Scenarios.KubeSystemBuild | kubetree_test.go:27-36 | listing `kube-system` alone builds the root with that one namespace |
| Scenarios.KubeSystemNodes | kubetree.go:410-415 | that graph is the root with child `kube-system` → `ns/kube-system`, neither with a desc |
| Scenarios.OneLeafText | kubetree.go:523-538 | an element with one childless child prints its line and the child's line two spaces in |
| Scenarios.KubeSystemShapeText | kubetree.go:509-539 | a root whose one child is `ns/kube-system` prints two lines |
| Scenarios.KubeSystemText | kubetree_test.go:27-38 | one namespace `kube-system` prints `kubernetes\n  ns/kube-system\n` |
| Tree.SortByKind | kubetree.go:535 | sorting the child keys permutes them into services-first, ascending-kind order |
| Tree.InsertAt | kubetree.go:491-507 | one insertion pass moves a[i] to a position pos: the elements it passes shift right by one, a[i] is `Less` than each of them and not `Less` than the one it stops behind; the multiset is kept and the sorted prefix grows by one |
| Tree.Inserted | kubetree.go:491-507 | moving a key left past exactly the keys it is `Less` than keeps the keys and extends a sorted prefix by one |
| Tree.SwapLeft | kubetree.go:495-497 | a swap exchanges a[j] and a[j-1], leaves every other cell as it was, and keeps the multiset of keys |
| Tree.EmptyVisits | kubetree.go:152-156 | iterating an empty pod table visits nothing, for every service |
| Tree.Kubetree.constructor | kubetree.go:100-115 | a new builder is the initial graph |
| Tree.Kubetree.Parents | kubetree.go:541-561 | the method returns CandidateParents |
| Tree.Kubetree.ResolvedOwners | kubetree.go:547-554 | the owner loop returns ResolveOwners |
| Tree.Kubetree.InsertChild | kubetree.go:387-389 | the insertion loop leaves AttachAll of the old elements and the index unchanged |
| Tree.Kubetree.ControllerOf | kubetree.go:582-587 | the climbing loop returns Controller |
| Tree.Kubetree.FindPodsWithLabels | kubetree.go:563-580 | the returned order lists each pod key once, and the result is PodsWithLabels for that order |
| Tree.Kubetree.Matches | kubetree.go:567-572 | the selector loop enters the pod once per matching key |
| Tree.Kubetree.AddNamespaces | kubetree.go:410-415 | the loop leaves Build.AddNamespaces of the old graph |
| Tree.Kubetree.AddNamespace | kubetree.go:411-414 | one record leaves NamespaceStep of the old graph |
| Tree.Kubetree.AddWorkloads | kubetree.go:368-390 | the loop fails iff Build.AddWorkloads does, with its error, and otherwise leaves its graph |
| Tree.Kubetree.AddWorkload | kubetree.go:370-389 | one record fails iff WorkloadStep does, and otherwise leaves its graph |
| Tree.Kubetree.AddClaims | kubetree.go:244-260 | the loop leaves Build.AddClaims of the old graph |
| Tree.Kubetree.AddClaim | kubetree.go:247-259 | one record leaves ClaimStep of the old graph |
| Tree.Kubetree.AddVolumes | kubetree.go:209-234 | the loop fails iff Build.AddVolumes does, with its error, and otherwise leaves its graph |
| Tree.Kubetree.AddVolume | kubetree.go:210-233 | one record fails iff VolumeStep does, and otherwise leaves its graph |
| Tree.Kubetree.AddServices | kubetree.go:170-199 | the loop leaves Build.AddServices for the pod-table orders it visited, each listing the table once |
| Tree.Kubetree.AddService | kubetree.go:171-198 | one record leaves ServiceStep for the order visited, and the pod table unchanged |
| Tree.Kubetree.LinkPods | kubetree.go:195-198 | the selected-pods loop leaves LinkService of the old graph |
| Tree.Kubetree.AddPods | kubetree.go:425-472 | the loop fails iff Build.AddPods does, with its error, and otherwise leaves its graph |
| Tree.Kubetree.AddPod | kubetree.go:426-471 | one record fails iff PodStep does, and otherwise leaves its graph |
| Tree.Kubetree.LinkVolumes | kubetree.go:458-466 | the volume loop leaves LinkClaims of the old elements and the index unchanged |
| Tree.Kubetree.ChildKeys | kubetree.go:531-534 | the map iteration lists each child key once |
| Tree.Kubetree.SortedChildren | kubetree.go:531-535 | the keys list each child once, sorted services first and then by ascending kind |
| Tree.Kubetree.PrintTree | kubetree.go:509-539 | printing succeeds iff the recursion fits in the frames, and then the trace conforms and the text is its rendering |
| Tree.Kubetree.PrintChildren | kubetree.go:536-538 | the children are printed in order until one runs out of frames, which makes the element run out |
| Tree.Kubetree.PrintChild | kubetree.go:537 | one child's call either extends the printed prefix or makes the element run out of frames |
| Tree.Kubetree.NamespaceStage | kubetree.go:394-416 | the namespace stage fails iff AfterNamespaces does, and otherwise leaves its graph |
| Tree.Kubetree.DeploymentStage | kubetree.go:363-392 | the Deployment stage fails iff AfterDeployments does, and otherwise leaves its graph |
| Tree.Kubetree.ReplicaSetStage | kubetree.go:331-361 | the ReplicaSet stage fails iff AfterReplicaSets does, and otherwise leaves its graph |
| Tree.Kubetree.StatefulSetStage | kubetree.go:302-329 | the StatefulSet stage fails iff AfterStatefulSets does, and otherwise leaves its graph |
| Tree.Kubetree.DaemonSetStage | kubetree.go:265-300 | the DaemonSet stage fails iff AfterDaemonSets does, and otherwise leaves its graph |
| Tree.Kubetree.ClaimStage | kubetree.go:239-263 | the claim stage fails iff AfterClaims does, and otherwise leaves its graph |
| Tree.Kubetree.VolumeStage | kubetree.go:204-237 | the volume stage fails iff AfterVolumes does, and otherwise leaves its graph |
| Tree.Kubetree.ServiceStage | kubetree.go:165-202 | the service stage fails iff AfterServices does, and otherwise leaves its graph, every selector loop having visited nothing |
| Tree.Kubetree.PodStage | kubetree.go:420-475 | the pod stage fails iff BuildGraph does, and otherwise leaves its graph |
| Tree.Kubetree.BuildTree | kubetree.go:124-158 | the stages in order fail iff BuildGraph does, with its error, and otherwise leave its graph |
| Tree.Run | kubetree.go:117-163 | the build's error, or the text of a conforming trace of the built graph, or StackExhausted exactly when the printing recursion outgrows the frames |

## Left out

- `main` (kubetree.go:49-98): flags, environment variables and kubeconfig loading are I/O.
  So is the `-n` namespace filter, with the single-namespace `Get` at kubetree.go:396-401.
  The model takes the namespace listing as given.
- The client calls (`List`): the fetched record lists are the parameter `Build.Inputs`. A
  failed listing is `FetchFailed`. The source returns the error from three functions
  (kubetree.go:366, 399 and 406, 423) and panics in the rest; either way the build ends, and the model only records the error value.
- Colour (`fatih/color`, kubetree.go:510-526) is the identity, so the state never shows in
  the text. This assumes colour output is turned off (`fatih/color`'s global `NoColor`):
  with it on, even `color.New()` without attributes wraps the text in escape codes. `New`
  (kubetree.go:100-115) leaves the four colour fields nil, and what a nil colour does is
  not part of this model. Only the state is modelled.
- `fmt.Sprintf` is modelled only for `%d` on integers (`Base.DecimalString`). Counters are
  unbounded integers; Go's `int32` fields never wrap in these format calls.
- `object interface{}` and the type assertion of kubetree.go:565, with its panic: each
  element keeps the pod labels from its record. A non-pod element cannot be in the pod
  table, because every step files an element under its own kind.
- Go map iteration order:
  - The iteration of the pod table is the ghost `order` returned by
    `Tree.Kubetree.FindPodsWithLabels`.
  - The iteration of a children map is a `:|` choice in `Tree.Kubetree.ChildKeys`.
  - Which orders a run can take is stated, but a particular order is not.
- Tree.SortByKind: models `sort.Sort` as the insertion sort Go uses on up to 12 elements
  (Go 1.19 and later; earlier releases first run a gap-6 shell pass on 7 to 12 elements).
  For longer slices Go runs a different algorithm, and siblings of one kind may come out
  in another order. The contract allows any permutation sorted by kind, so it
  covers both.
- Tree.Kubetree.PrintTree: the stack is a `depth` parameter. On a cycle of children links
  (a pod owned by the claim it mounts) Go recurses until the stack overflows; the model
  reports `StackExhausted` when `depth` frames are not enough.
- Tree.Kubetree.AddWorkloads: when it returns an error, the state it leaves is not
  described. The source panics there, and `Tree.Run` returns the error without printing.
  The same holds for Tree.Kubetree.AddVolumes, Tree.Kubetree.AddPods and the stage methods.
- Forest.PodsWithLabels: total over any key sequence, ignoring keys outside the pod table.
  It equals the source's loop only for an order that lists the table once each, which is
  what `Tree.Kubetree.FindPodsWithLabels` returns.
- Build.AddPods: does not state which tables it leaves unchanged. Pods update the Pod table
  and the elements of claims, and no later stage reads the index.

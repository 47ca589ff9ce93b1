# The platform's operations, verified

A Dafny model of the scripts that move, back up, guard, render, release and scrub the TXNet platform.
The code here talks to servers through ssh, kubectl, nft, iptables, S3 and DNS APIs; the model keeps
the decisions and the order of the commands, and makes every command an action on a state that may
fail or be the last one before a crash. `dafny verify dfyconfig.toml` checks the whole project.

| files | what they model |
|---|---|
| ClusterWorld, ClusterProtocol, ClusterRuns, ClusterMove | moving production between two k3s servers in ten resumable steps: one writer at any moment, nothing lost |
| ClusterRerun, ClusterLoss, ClusterByHand | when a step of the move cut off can still be finished, when the move loses a write, and what a done step run again by hand can do |
| Retention, Shipping, BundleNames | which backup bundles S3 keeps, two timers making, shipping and pruning them at once, and the names that carry their time |
| EdgeChain, EdgeVerdicts | iptables chains edited live by number by two scripts, with what each state means for a packet |
| Escaping, Renderer, RendererClosure, Tags | the compose-to-Kubernetes compiler: escaping, the closure of its output's references, and what an image's tag depends on |
| Registry, ReleaseHistory, Release | deletion by digest, the rollback record, and the proof and approval a release needs |
| ReplicaRestore | stopping and starting a cluster around a restore that may be killed anywhere |
| ZoneStore, EdgeZone, ArvanZone | two DNS reconcilers and their repoints |
| Walk | the bounded walk over the unit graph |
| Scrub, People | staging's copy of production's panels and people, scrubbed and guarded |
| Sets, Strings, Numerals, Wrappers | shared pieces |

## Where a promise does not hold

Each of these is stated with its exact condition, or with an input that breaks it.

- The mute of a new server is reloaded by deleting its table first; on a server that is not empty there is a
  moment without it (`ClusterProtocol.MuteGap`).
- `restore`, `fence`, `open` and `repoint` each take away what their first commands need: one that failed late or
  lost its driver then cannot be run again, the fence until k3s is started by hand, the others at all
  (`ClusterRerun.RerunFinishesIff`, `ClusterRerun.CutOffStrands`, `ClusterRerun.RunMayBeStranded`).
- `stop` scales by a remote loop that takes a failed listing for an empty one, passes over a workload that fails and
  ends as its last turn did; a workload left above zero with no pod at the last poll can write after the bundle is
  read (`ClusterLoss.StopIsSafeIff`, `ClusterLoss.StopMayLoseAWrite`).
- A bundle is stale only if older than the stop, so one of its very second that missed a write is carried once the
  old clock steps back (`ClusterLoss.StopIsSafeIff`, `ClusterLoss.ClockMayLoseAWrite`).
- A done step may be run again by hand, so `restore` can overwrite what the open new server wrote, as long as the
  bundle it carried is still staged (`ClusterByHand.ByHandKeepsDataIff`, `ClusterByHand.RestoreAgainForgets`,
  `ClusterByHand.RunMayLeaveItStaged`).
- `bundle_created` reads up to the first dot of the name, so a project with a dot hides the time
  (`BundleNames.CreatedIsTheTimeIff`).
- File objects are keyed by name alone, and a config one service has rewritten for it overwrites the other's
  (`RendererClosure.FilesAreClosedIff`, `RendererClosure.RewrittenFileIsNotClosed`).
- So are a pod's volumes: of two files of one base name both mounts show the later one
  (`RendererClosure.MountsShowTheirOwnIff`, `RendererClosure.SameBaseNameIsShared`).
- A sidecar's Traefik labels and `expose:` are read, but it gets no Service
  (`RendererClosure.RoutesAreServedIff`, `RendererClosure.CallsAreAnsweredIff`).
- After a rollback `restorable` may accept a release whose images are deleted, and then no prune deletes anything
  (`ReleaseHistory.RestorableAfterRollbackIff`, `ReleaseHistory.RestorableMayBeGone`,
  `ReleaseHistory.MissingImagesStopPruning`).
- A twin started with `--from` proves nothing about the commit a deploy goes over, and the send does not look
  (`Release.DeployIsProvedFromIff`, `Release.FromDeploysUnproved`).
- A project the app does not import can take the app's name over
  (`Tags.OtherProjectsDoNotCount`, `Tags.RenamedProjectTakesOver`).
- Jumps re-hooked for other ports or another interface let through on the way what only the old ones dropped
  (`EdgeVerdicts.DropsStayIff`, `EdgeVerdicts.OtherInterfaceLetsThrough`).
- A data store of other than one replica, and any workload the move has stopped twice, is forgotten
  (`ReplicaRestore.StoreKeepsItsCountIff`, `ReplicaRestore.MoveForgetsWhenRunAgain`).
- Arvan's repoint, cut off between the last door and the reseller target, is refused from then on
  (`ArvanZone.RepointResumesIff`, `ArvanZone.TargetMayStayBehind`).
- From ten million rows two fake phones are the same; a contact that is another's with a `~` before it breaks
  the move aside (`People.PhonesDifferIff`, `People.AsideIsUniqueIff`, `People.TildeFormIsMet`).

One hypothesis turned out not to be needed: the guard finds nothing after the scrub even if a local panel had the
wiped address.

## Model

| member | source | states |
|---|---|---|
| `ClusterRuns.EveryMomentHasOneWriter` | scripts/move/cluster_move.py:297-307 | at every moment of every run from an empty new server, each attempt at a step refused, cut off or killed anywhere and begun again, the two servers never both send; the new one sends only while the old carries the marker, runs no k3s and has no pod that sends |
| `ClusterRuns.NothingIsLost` | scripts/move/cluster_open.py:48-65 | whenever the new server is open, the data restored on it holds every write ever made on the old one, if at the stop every workload but the stores was at zero and, where the old clock stepped back after it, no half-written bundle of its very second was carried |
| `ClusterRuns.RehearsalLeavesTheOldServer` | scripts/move/cluster_fence.py:27-32 | nothing a driver of a rehearsal does changes anything of the old server: its steps have no command that would |
| `ClusterRuns.NewWritesStay` | scripts/move/cluster_fence.py:125-134 | from the moment `restore` is saved, no run takes away what was restored or anything the new server has written since |
| `ClusterRuns.NextHolds` | scripts/move/cluster_move.py:297-307 | every event, attempt begun, command sent and crash keeps the invariant, and what the attempt under way has brought about |
| `ClusterLoss.StopIsSafeIff` | scripts/move/cluster_move.py:221-237 | the moment `stop` is saved decides it: from there every continuation that reaches `open` serves every write exactly if every workload but the stores is at zero and no bundle of that very second misses a write; exactly the first alone as long as the old clock does not step back |
| `ClusterLoss.StopMayLoseAWrite` | scripts/move/cluster_move.py:224-228 | from any start with a k3s that answers and a workload that is no store, no hand on the old server, its clock never set back: the remote loop that passes over what fails leaves a run that loses a write |
| `ClusterLoss.ClockMayLoseAWrite` | scripts/move/cluster_fence.py:54-59 | from any such start, every workload but the stores really at zero: a bundle read in the stop's second before its last write and a clock set back after it lose that write, since a bundle is stale only if older than the stop |
| `ClusterRerun.RerunFinishesIff` | scripts/move/cluster_move.py:297-307 | in any state of any run with the driver gone, the step whose turn it is can be run to its end, in one attempt or many, exactly when what it needs is there: a k3s that answers for mute, stop, bundle and fence, the staged bundle for restore, the mute unit and the evidence for open, Cloudflare still on the old address for repoint |
| `ClusterRerun.CutOffStrands` | scripts/move/cluster_open.py:32-86 | restore, fence, open and repoint each take away what they need: cut off or failed late they leave a state from which no run finishes, the fence until k3s is started by hand, the others whatever is done about the old server |
| `ClusterRerun.RunMayBeStranded` | scripts/move/cluster_open.py:32-86 | from any start of a move with a k3s that answers, a run comes to each of the four and may be stranded there |
| `ClusterRerun.OthersAreNotStranded` | scripts/move/cluster_move.py:142-276 | no command of the driver takes away what another step needs |
| `ClusterByHand.ByHandKeepsOneWriter` | scripts/move/cluster_fence.py:125-134 | once the new server is open, whatever done steps are run again by hand, cut off anywhere, the old one stays closed and there is one writer |
| `ClusterByHand.ByHandKeepsDataIff` | scripts/move/cluster_move.py:279-290 | and what was restored, with all the new server has written since, stays exactly if `restore` is not among them or the carried bundle is no longer staged |
| `ClusterByHand.RestoreAgainForgets` | scripts/move/cluster_move.py:279-290 | else such a `restore`, ended well, leaves the bundle's data and nothing written since |
| `ClusterByHand.RunMayLeaveItStaged` | scripts/move/cluster_move.py:287-288 | from any start of a move with a k3s that answers, a run opens the new server with the carried bundle still staged, its clearing not looked at |
| `ClusterWorld.InvIsOneWriter` | scripts/move/cluster_fence.py:137-143 | the invariant of the run means one writer, and an open new server means a closed old one |
| `ClusterWorld.InvIsNothingLost` | scripts/move/cluster_move.py:253-276 | the invariant means that what `open` serves is every write of the old server, if the stop halted it and no half-written bundle of its second could be taken |
| `ClusterWorld.EventKeepsInv` | scripts/move/cluster_fence.py:39-51 | nothing that happens without the driver breaks it: writes, timers, reboots, pods started or ended, a bundle made by a timer, pruning, a deploy refused by the marker |
| `ClusterWorld.WritersLeft` | scripts/move/cluster_fence.py:39-51 | lists the live pods of the two namespaces that are neither a DaemonSet's nor a kept store's, a bundle's scratch pod too, each as often as it is listed, and no other; empty exactly when there is none |
| `ClusterWorld.QuietStays` | scripts/move/cluster_fence.py:39-51 | a cluster scaled down and checked at zero writers starts none by itself |
| `ClusterWorld.StepsByRank` | scripts/move/cluster_fence.py:28-32 | the steps of a mode are exactly those of its list, in its order |
| `ClusterProtocol.InOrderIsFirstPending` | scripts/move/cluster_fence.py:125-134 | a step not yet done is in order exactly when it is the first pending one |
| `ClusterProtocol.DoneStaysInOrder` | scripts/move/cluster_run.py:25-46 | what is saved as done stays a prefix of the mode's steps |
| `ClusterProtocol.EarlierAreDone` | scripts/move/cluster_fence.py:125-134 | a step in order has every earlier step of its mode done |
| `ClusterProtocol.CommandKeepsInv` | scripts/move/cluster_move.py:142-276 | every command sent in its turn that comes back without an error keeps the invariant and brings about what the next one, or the saved state, rests on |
| `ClusterProtocol.SaveKeepsInv` | scripts/move/cluster_move.py:297-307 | what the state file says of a step once its last command is back is true: muted, stopped, carried whole, restored, fenced, opened |
| `ClusterProtocol.RehearsalOnlyReads` | scripts/move/cluster_fence.py:27-32 | no command that comes in a rehearsal's steps changes the old server |
| `ClusterProtocol.PublishedIsFresh` | scripts/move/cluster_move.py:253-264 | the driver's own bundle, begun after the stop, holds every write, and is not stale unless the clock stepped back |
| `ClusterProtocol.CarriedIsWhole` | scripts/move/cluster_move.py:240-264 | the greatest name not older than the stop is a bundle of everything ever written: always if the clock kept going, else unless it is one of the stop's second |
| `ClusterProtocol.MuteGap` | scripts/move/cluster_move.py:156-163 | the mute reloaded (table deleted, then loaded) leaves one writer all the way exactly when one of the two servers cannot send by itself: an empty new server, or an old one already down |
| `ClusterMove.Run.MuteTarget` | scripts/move/cluster_move.py:142-168 | a mute that comes back leaves the new server mute now and after a reboot; cut off anywhere it keeps the invariant |
| `ClusterMove.Run.ScaleLoop` | scripts/move/cluster_move.py:224-228 | the remote loop changes no count but of its namespace's workloads that are no store, and those only to zero; it promises none of them |
| `ClusterMove.Run.ScaleAll` | scripts/move/cluster_open.py:33-34 | `kubectl scale --all` that comes back has every workload of its namespace at zero |
| `ClusterMove.Run.AwaitQuiet` | scripts/move/cluster_move.py:230-234 | comes back true only after a listing with no writer left |
| `ClusterMove.Run.StopOld` | scripts/move/cluster_move.py:221-237 | a stop that comes back has the bundle timers off and its second noted; the old cluster is quiet but for its stores if every other workload really is at zero |
| `ClusterMove.Run.MakeBundle` | scripts/move/cluster_move.py:253-259 | `backup.py now`: its data read after it began, its name last; of a halted server it holds every write |
| `ClusterMove.Run.CarryBundle` | scripts/move/cluster_move.py:253-276 | what is carried is the greatest name, refused if older than the stop, and holds every write or falls under one of the two exceptions |
| `ClusterMove.Run.RestoreData` | scripts/move/cluster_move.py:279-290 | the new server's data is the carried bundle's when it comes back; and when its clearing came back, after a success or a failure alike, nothing is left staged |
| `ClusterMove.Run.FenceOld` | scripts/move/cluster_open.py:32-45 | a fence that comes back leaves every workload at zero, k3s stopped and the marker read back |
| `ClusterMove.Run.OpenNew` | scripts/move/cluster_open.py:48-65 | opens only on evidence read then: one that comes back has the old server closed |
| `ClusterMove.Run.RepointEdges` | scripts/move/cluster_open.py:75-86 | both edges point at the new server, Cloudflare first |
| `ClusterMove.Run.RunStep` | scripts/move/cluster_move.py:297-307 | a step out of order is refused with nothing sent; it is saved as done exactly when it came back |
| `ClusterMove.Run.RunAll` | scripts/move/cluster_run.py:34-46 | 0 exactly when nothing is left pending; of the attempts it begins, each at a step the mode asks for comes after the owner typed `yes` to it |
| `ClusterMove.Run.RunAgain` | scripts/move/cluster_run.py:29-46 | `run` repeated with the same servers as long as it continues, each time cut off anywhere, refused or declined: its history is a run of the protocol, with one writer at every moment, and nothing lost wherever `open` is done after a stop that halted the old server, its clock never set back; each command sent is of an attempt begun, and one at `stop` or `repoint` of a move only in a run whose owner typed `yes` |
| `Retention.S3Keep` | scripts/bundle/bundle_plan.py:83-97 | the early-breaking loops compute the declarative rule: the 7 newest, and the newest bundle of each of the first `count` periods inside each window, for any period functions |
| `Retention.PickPeriods` | scripts/bundle/bundle_plan.py:88-96 | one inner loop chooses exactly the bundles its rule means |
| `Retention.KeepFromFewer` | scripts/bundle/bundle_plan.py:83-97 | for S inside T: what keep(T) has of S is in keep(S) |
| `Retention.KeepIsPathIndependent` | scripts/bundle/bundle_plan.py:83-97 | if keep(T) is inside S and S inside T, keep(S) = keep(T) |
| `Retention.OnlinePruningLosesNothing` | scripts/bundle/bundle_plan.py:100-110 | a store pruned at every arrival always holds what one prune of the full history would keep |
| `Retention.NewestSevenAreKept` | scripts/bundle/bundle_plan.py:28-28 | each of the newest seven is kept, whatever the other rules say |
| `Retention.S3KeepsAtMost` | scripts/bundle/bundle_plan.py:24-40 | whatever was ever made, the rule keeps at most forty-five bundles |
| `Retention.NoPeriodIsLost` | scripts/bundle/bundle_plan.py:88-96 | dropping bundles a rule did not choose loses no period newer than a chosen one |
| `Shipping.EveryRunKeepsInv` | scripts/bundle/ship.py:90-119 | every interleaving of make, both upkeeps, ship and the S3 prune, each cut off after any file or key, keeps the invariant |
| `Shipping.ChecksumMeansBundle` | scripts/bundle/ship.py:59-65 | at every moment a checksum in S3 has its bundle there, and a name in the ledger reached S3 whole |
| `Shipping.NothingKeptIsLost` | scripts/bundle/bundle_plan.py:77-110 | every bundle the rule would choose of all ever made is on the local disk or in S3 |
| `Shipping.NewestSevenStayHere` | scripts/bundle/bundle_make.py:173-185 | the newest seven ever made are on the local disk, each with its checksum |
| `Shipping.ShipperFindsItsFiles` | scripts/bundle/ship.py:107-112 | however the other process tidies, the shipper finds both files of what it is sending |
| `Shipping.S3ToRemove` | scripts/bundle/bundle_plan.py:100-110 | exactly the keys of bundles past their lock and not kept, oldest first, each checksum before its bundle |
| `Shipping.PrunedIsOldAndShipped` | scripts/bundle/bundle_plan.py:77-80 | the local prune never names one of the newest seven, nor one the ledger does not hold |
| `BundleNames.TimeUndoesNameIff` | scripts/bundle/bundle_plan.py:55-69 | bundle_time undoes bundle_name for every project, dashes and dots included, exactly when the year has four digits |
| `BundleNames.OthersAreNoBundles` | scripts/bundle/bundle_plan.py:60-63 | a checksum or a half-written bundle is refused, whatever the name it goes with |
| `BundleNames.NamesCompareAsTimes` | scripts/move/cluster_move.py:240-244 | one project's names compare as text exactly as their times |
| `BundleNames.GreatestNameIsNewest` | scripts/move/cluster_move.py:240-244 | max(names) is the bundle no other of the project is later than |
| `BundleNames.CreatedIsTheTime` | scripts/move/cluster_move.py:247-250 | for a project without dots, bundle_created is the manifest's form of the very time in the name |
| `BundleNames.CreatedIsTheTimeIff` | scripts/move/cluster_move.py:247-250 | bundle_created is the very time of each bundle of a project exactly if its name has no dot |
| `BundleNames.DottedProjectHidesTheTime` | scripts/move/cluster_move.py:247-250 | for a project with a dot, bundle_created is the same of every bundle |
| `EdgeChain.Host.Hook` | scripts/edge/edge_chain.py:49-61 | by index, the result is the jumps and then the old chain without this target's, in order, or nothing when they are in place; every state on the way is one of the named intermediate ones |
| `EdgeChain.Host.DeleteStale` | scripts/edge/edge_chain.py:60-61 | deleting by number from the bottom leaves exactly the other rules below the fresh jumps |
| `EdgeChain.Host.HookAll` | scripts/edge/edge_chain.py:64-72 | each chain the host has is hooked once, with its own jumps in order; other chains and missing ones are left |
| `EdgeChain.Host.Unhook` | scripts/edge/edge_chain.py:75-79 | every copy of the jumps is gone and nothing else |
| `EdgeChain.OnTopMeansLeading` | scripts/edge/edge_chain.py:39-46 | on_top holds exactly when this target's jumps are the first `count` of the rules that are no other edge chain's jumps |
| `EdgeVerdicts.NoThirdVerdict` | scripts/edge/edge_chain.py:49-61 | in every state hook passes through, each packet gets the verdict it got before or the one it gets after |
| `EdgeVerdicts.DropsStayIff` | scripts/edge/edge_chain.py:49-61 | a packet the target drops is dropped in every intermediate state exactly when a fresh jump is of it too, or the rules of others drop it |
| `EdgeVerdicts.OtherInterfaceLetsThrough` | scripts/edge/edge_chain.py:49-61 | the door re-hooked in INPUT for another interface: a packet to port 80 of the old one, which only the door drops, comes through |
| `EdgeVerdicts.DropsStay` | scripts/edge/edge_chain.py:49-53 | so it is when the stale jumps are among the fresh ones |
| `EdgeVerdicts.StoppedHookLosesNothing` | scripts/edge/edge_chain.py:49-61 | a hook stopped anywhere has touched no one else's rule, and a rerun with anything to do finishes it |
| `EdgeVerdicts.HookedIsStable` | scripts/edge/edge_chain.py:55-57 | a second hook has nothing to do |
| `EdgeVerdicts.OtherIsStableIff` | scripts/edge/edge_chain.py:39-46 | hooking one edge chain neither puts another on top nor takes it from there |
| `EdgeVerdicts.ScriptsSettle` | scripts/edge/edge_chain.py:39-61 | once each script has run, in any order, no further run of any of them changes the chain |
| `EdgeVerdicts.StableHasTheJumps` | scripts/edge/edge_chain.py:55-57 | where hook does nothing, the target's rules are exactly the jumps, each once |
| `EdgeVerdicts.UnhookUndoesHook` | scripts/edge/edge_chain.py:75-79 | unhook after hook leaves none of the target's jumps and every other rule in place |
| `EdgeVerdicts.OrderChangesNoVerdict` | scripts/edge/edge_chain.py:41-43 | two settled chains with no edge chain's jumps but two scripts', which decide disjoint packets, and with everyone else's rules alike, judge every packet alike, whatever the order of the two |
| `EdgeVerdicts.PortsAreDisjoint` | scripts/edge/k3s_ports.py:97-108 | no packet is matched by a jump of the edge door and a jump of k3s's chain, in any chain, on any interfaces |
| `EdgeVerdicts.OrderOfTwoScripts` | scripts/edge/edge_chain.py:39-61 | two scripts that decide disjoint packets may run in either order, on whatever chain they find: every packet is judged alike |
| `EdgeVerdicts.EitherMayRunFirst` | scripts/edge/edge_firewall.py:67-79 | whichever of the two scripts ran first, on any chain and any interfaces, every packet is judged alike |
| `Escaping.UndoneUndoesDoubled` | tools/k8srender/objects.py:38-45 | undoing compose's escaping returns the author's text |
| `Escaping.ModelComesBack` | tools/k8srender/objects.py:38-45 | so does the whole nested model |
| `Escaping.ExpandedUndoesEscaped` | tools/k8srender/objects.py:48-50 | Kubernetes expands nothing of an escaped text, whatever variables are defined |
| `Escaping.PodRunsTheAuthorsArgv` | tools/k8srender/container.py:41-44 | for every text and every environment a pod's argv is the compose author's |
| `Escaping.EscapedOnlyWhereNeeded` | tools/k8srender/objects.py:48-50 | the escape leaves alone exactly the texts with no `$` before a `$` or a `(` |
| `Renderer.Mounts.ForService` | tools/k8srender/volumes.py:31-44 | a container's mounts are its entries' in order; the pod's volumes and objects are those entries placed one over the other; refused exactly when some entry is |
| `Renderer.RenderPod` | tools/k8srender/__init__.py:97-136 | a pod is its service and its sidecars over one set of mounts; refused when a mount is or a route has no backend |
| `Renderer.CheckCalls` | tools/k8srender/__init__.py:222-244 | refused exactly when some call names a service here or in the peer on a port it does not expose; else the peer names called |
| `Renderer.Render` | tools/k8srender/__init__.py:52-83 | every service that is no sidecar becomes a pod, the shared objects merged in order |
| `RendererClosure.PodIsClosed` | tools/k8srender/__init__.py:97-136 | within a pod every environment Secret, volume, claim and file named is there, with no hypothesis |
| `RendererClosure.MountsShowTheirOwnIff` | tools/k8srender/volumes.py:82-114 | a volume is a pod's by name alone: every mount of a pod shows what its own entry names exactly when the entries mounted under one name are of one volume |
| `RendererClosure.SameBaseNameIsShared` | tools/k8srender/volumes.py:89-96 | two files of one base name and different text are mounted under one name |
| `RendererClosure.PlacingKeepsBacked` | tools/k8srender/volumes.py:65-114 | whatever is placed over whatever, a volume keeps the object it names |
| `RendererClosure.ClaimsAreClosed` | tools/k8srender/volumes.py:129-136 | every claim a pod of the stack names is in storage.yaml's objects |
| `RendererClosure.PodClaimsIff` | tools/k8srender/volumes.py:56-63 | a pod's claims are exactly the named volumes its services mount, but those private to one pod |
| `RendererClosure.FilesAreClosedIff` | tools/k8srender/__init__.py:68-75 | file objects are keyed by name: the stack is closed for them exactly when, under every name, each pod whose last mount there is a file mounts the very file that the last pod with one there does |
| `RendererClosure.FilesNamedApartAreClosed` | tools/k8srender/volumes.py:82-114 | files mounted under one name being one file read one way is enough |
| `RendererClosure.RewrittenFileIsNotClosed` | tools/k8srender/volumes.py:109-112 | two services reading one file differently: a pod names an object that is not there |
| `RendererClosure.IndexHolds` | tools/k8srender/traefik.py:79-81 | a Traefik service name stands for a container that defines it, on the port it gives |
| `RendererClosure.RoutesAreServedIff` | tools/k8srender/traefik.py:125-135 | a route's backend is a Service of the output, on its port, exactly when its owner is no sidecar |
| `RendererClosure.CallsAreAnsweredIff` | tools/k8srender/__init__.py:222-244 | in a stack render accepts, a service called by name has a Service with the port named, or with each one it exposes and at least one when none is named, exactly when it is no sidecar |
| `RendererClosure.SidecarsRouteIsNotServed` | tools/k8srender/traefik.py:125-135 | a route to a sidecar's port is accepted and no Service answers it |
| `Tags.Closure` | tools/k8srender/tags.py:86-92 | the worklist computes exactly the projects reached by one or more imports |
| `Tags.AppInputs` | tools/k8srender/tags.py:106-113 | refused for an unknown app; else the lines of exactly the files that lie in no project the app does not import, seed scripts apart |
| `Tags.NamedIff` | tools/k8srender/tags.py:75-75 | an app is looked up as a project exactly if that is called so and none listed after it is |
| `Tags.OtherProjectsDoNotCount` | tools/k8srender/tags.py:106-113 | trees with the same projects and aliases that differ only in projects the app does not import, or in seed scripts outside every project: the app is the same project in both exactly if the other calls none listed after it by its name, and exactly then are the inputs the same |
| `Tags.RenamedProjectTakesOver` | tools/k8srender/tags.py:75-75 | a project the app does not import, given the app's name, becomes what its image is made of |
| `Tags.InputsAreTheKeptFiles` | tools/k8srender/tags.py:111-113 | the inputs are equal exactly when the kept files are |
| `Registry.SplitUndoesJoin` | tools/release_registry.py:68-72 | host, path and tag come back from the joined name, a port in the host or not |
| `Registry.Store.Plan` | tools/release_registry.py:80-95 | refused exactly when a kept tag is missing or a digest cannot be read; else exactly the digests of kept repositories no kept tag resolves to, each with its stale tags |
| `Registry.Store.Prune` | tools/release_registry.py:98-104 | nothing is deleted for no history, a commit that does not render or a missing kept tag; done, kept repositories hold exactly the tags sharing a kept digest and the others are as they were |
| `Registry.KeptStay` | tools/release_registry.py:80-82 | however far a prune came, a kept image resolves to its digest and a repository no kept release uses is untouched |
| `Registry.StoppedPruneIsFinished` | tools/release_registry.py:98-104 | a prune stopped anywhere is finished by the next one |
| `ReleaseHistory.RecordStaysProper` | tools/k8s_release.py:141-148 | the record stays a list of different releases, the running one last, at most ten |
| `ReleaseHistory.RollbackNeverGoesForward` | tools/k8s_release.py:145-148 | a rollback only shortens the record, and `previous` then lies further back |
| `ReleaseHistory.DeployReachesNoFurther` | tools/k8s_release.py:141-142 | a deploy brings no older release back among the last five |
| `ReleaseHistory.SafeReleasesArePresent` | tools/k8s_release.py:168-170 | over any run of pushes, deploys, rollbacks and prunes, stopped anywhere, a release deployed since the last prune or among the five newest at it has its images |
| `ReleaseHistory.RestorableIsPresent` | tools/k8s_release.py:168-170 | with no rollback in the run, every release `restorable` accepts has its images |
| `ReleaseHistory.RestorableAfterRollbackIff` | tools/k8s_release.py:168-170 | for any registry and any releases, after a whole prune and any rollback `restorable` accepts: all it then accepts have their images exactly if each release brought back into reach was there before the prune and shares the digests of kept images |
| `ReleaseHistory.RestorableOfOwnImagesIff` | tools/k8s_release.py:168-170 | where no release but the last five shares them: exactly if the record had at most five, or the rollback was to the running release |
| `ReleaseHistory.RestorableMayBeGone` | tools/k8s_release.py:168-170 | with more than five releases on record, each of one image of its own, pruned whole and rolled back any step: one that `restorable` accepts is gone |
| `ReleaseHistory.PresentAfterPruneIff` | tools/release_registry.py:80-95 | for any registry and any releases, a release is there after a whole prune exactly if it was there and each of its images in the repositories pruned shares its digest with a kept one |
| `ReleaseHistory.MissingImagesStopPruning` | tools/release_registry.py:90-90 | one of the last five without its images stops every prune |
| `Release.Desk.Prove` | tools/release.py:309-348 | the earlier record is spent before staging changes; the new one names HEAD and production's commit, behind it the quick lane or a twin from there or from the commit --from names; asked to stop before the twin, it changes nothing |
| `Release.Desk.Approve` | tools/release.py:209-219 | approved exactly when the commit was proved, in a terminal, its first twelve characters typed |
| `Release.Desk.Send` | tools/release.py:351-372 | refused, changing nothing, unless this commit is proved while production was where it is, and approved; a completed send spends the record |
| `Release.Run` | tools/release.py:394-421 | any sequence of the three commands on an empty log is a run of the value-level commands, and keeps what the log promises |
| `Release.DeploysAreProvedAndApproved` | tools/release.py:222-232 | in every run from an empty log, every deploy is of a commit proved while production was at the commit it goes over, approved after that proof, nothing proved in between |
| `Release.DeployIsProvedFromIff` | tools/release.py:340-341 | behind that proof is a twin that started at the commit the deploy goes over exactly if it was proved with --from a name of that commit, or without --from and not in the quick lane |
| `Release.FromDeploysUnproved` | tools/release.py:340-341 | with --from anything else, a run proves, approves, sends and deploys a commit never proved from the one it goes over |
| `Release.EachSendHasItsApproval` | tools/release.py:362-365 | in every run, between two completed sends the owner approved again |
| `Release.SentOnceShippedIff` | tools/release.py:229-231 | after a send that moved production's checkout and failed, every further send of that commit changes nothing exactly if production was on another commit before |
| `ReplicaRestore.Stack.StopAll` | scripts/bundle/bundle_k8s.py:239-247 | every workload at zero with its own count noted, from any state a cut-off restore leaves |
| `ReplicaRestore.Stack.StartAll` | scripts/bundle/bundle_k8s.py:259-263 | every workload that is no store is back at its count, unannotated |
| `ReplicaRestore.Stack.Restore` | scripts/bundle/bundle_restore.py:163-236 | cut off after any command, each workload still carries its count or runs it; ended, the stores run theirs, and all do unless it warned |
| `ReplicaRestore.Stack.RestoreUntilDone` | scripts/bundle/bundle_restore.py:163-236 | over any number of restores, cut off or ended with the warning, no count is forgotten, and one that ends without it gives all back |
| `ReplicaRestore.StoreKeepsItsCountIff` | scripts/bundle/bundle_k8s.py:219-223 | a store keeps its count over a restore killed after the stop and run again exactly when it is one |
| `ReplicaRestore.MoveForgetsWhenRunAgain` | scripts/move/cluster_move.py:224-228 | the move's own note holds the count after a second stop only when that was zero |
| `Walk.WalkFrom` | tools/where.py:590-621 | nothing for an unknown entry; else exactly the units within max_hops, each once, at its shortest distance, nearest first, each by an edge from a unit one hop nearer, in the order the hypothesis sets |
| `Walk.WalksDifferInOrderOnly` | tools/where.py:590-596 | two walks with different hypotheses list the same units at the same depths |
| `Walk.ByRankPermutes` | tools/where.py:619-619 | the sort of a unit's neighbours loses none and puts the best hits first |
| `Walk.FreshIsNew` | tools/where.py:609-618 | what opening a unit adds is unseen, each once, by an edge, and leaves no neighbour out |
| `Walk.BuildGraph` | tools/where.py:579-587 | a unit's declared dependencies in order, then what the runtime map adds |
| `ZoneStore.Account.Send` | scripts/edge/arvan_zone.py:182-190 | a send applies a prefix of its changes, in order |
| `ZoneStore.MadeShows` | scripts/edge/edge_zone.py:172-180 | a planned change leaves its name exactly its body and every other name what it had |
| `EdgeZone.NothingToChangeIff` | scripts/edge/edge_zone.py:77-103 | the plan is empty exactly when the origin's record, the wildcard and the fallback are as wanted |
| `EdgeZone.PlanResumes` | scripts/edge/edge_zone.py:172-180 | a send cut off after any request leaves a zone whose plan is exactly the remaining requests |
| `EdgeZone.ApplyMakesReady` | scripts/edge/edge_zone.py:77-103 | applying any accepted plan makes the zone ready |
| `EdgeZone.OthersStay` | scripts/edge/edge_zone.py:77-103 | no record of another name is touched |
| `EdgeZone.RepointResumes` | scripts/edge/edge_zone.py:110-118 | a repoint cut off resumes with exactly what is left, and is refused when nothing is |
| `ArvanZone.MakePlan` | scripts/edge/arvan_zone.py:91-116 | the loop over the doors computes the plan: refused on a bad address, an ambiguous or foreign record, a missing door with no address |
| `ArvanZone.NothingToChangeIff` | scripts/edge/arvan_zone.py:91-113 | the plan is empty exactly when every door, the target and the certificate are as wanted |
| `ArvanZone.PlanResumes` | scripts/edge/arvan_zone.py:182-190 | a send cut off after any request leaves a zone whose plan is exactly the remaining requests |
| `ArvanZone.OthersStay` | scripts/edge/arvan_zone.py:14-18 | no record of a name that is neither a door nor the target is touched |
| `ArvanZone.RepointResumesIff` | scripts/edge/arvan_zone.py:119-130 | a repoint cut off resumes with what is left exactly when a door is left |
| `ArvanZone.TargetMayStayBehind` | scripts/edge/arvan_zone.py:124-130 | the repoint of the three doors, cut off between the last one there and the target, is refused from then on with the target still on the old address |
| `Scrub.Plan` | tools/k8s_staging_scrub.py:111-123 | each panel of the test panels' server in service is pointed at its local copy, every other one wiped |
| `Scrub.Copy.Apply` | tools/k8s_staging_scrub.py:130-149 | the statements leave each pointed row its new addresses, every other row wiped and archived, and only the pointed panels' logins |
| `Scrub.Offenders` | tools/k8s_staging_scrub.py:156-180 | nothing is found exactly when the copy is clean |
| `Scrub.ScrubbedIsClean` | tools/k8s_staging_scrub.py:100-180 | for all panel and vault rows, what the plan and the statements leave is clean |
| `Scrub.ScrubThenGuard` | tools/k8s_staging_scrub.py:205-215 | scrub and then guard finds nothing |
| `People.PhonesDifferIff` | tools/k8s_staging_people.py:23-23 | the fake phones of so many rows all differ exactly below ten million, where lpad begins to cut |
| `People.AsideIsUniqueIff` | tools/k8s_staging_people.py:163-164 | moving a column aside keeps it unique after every row, in any order, exactly when no contact is another's with a `~` before it |
| `People.TildeFormIsMet` | tools/k8s_staging_people.py:163-164 | a contact and its `~` form in two rows of one key: the first, moved aside, meets the second |
| `People.Table.ScrubUnique` | tools/k8s_staging_people.py:155-169 | both phases, rows and numbers in any order: unique after every single row update, and each rewritten row has the fake of its own number |
| `People.GuardCountsNone` | tools/k8s_staging_people.py:172-180 | what the scrub leaves, the guard counts none of, the owner's chats apart |
| `People.Table.ScrubPhones` | tools/k8s_staging_people.py:155-180 | a phone column below ten million rows scrubbed: unique after every row update, and the guard then counts none in it |
| `People.Table.ScrubEmails` | tools/k8s_staging_people.py:155-180 | so an email column |
| `People.Table.ScrubChats` | tools/k8s_staging_people.py:155-180 | so a chat column, the owner's own chats left as they are |
| `People.PhonesCountNone` | tools/k8s_staging_people.py:172-180 | whatever the numbers, the guard counts no real phone after the scrub |
| `People.ChatsCountNone` | tools/k8s_staging_people.py:172-180 | nor a real chat but the owner's |
| `People.PhonesAreFit` | tools/k8s_staging_people.py:39-40 | fake phones pass is_phone whatever the number of rows, and are fit for the two phases below ten million |
| `People.EmailsAreFit` | tools/k8s_staging_people.py:43-44 | so are emails |
| `People.ChatsAreFit` | tools/k8s_staging_people.py:47-48 | so are chats, as long as no kept owner's id is shaped like a fake |

## Left out

- The move: hypotheses. The new server starts empty; only the driver changes replica counts; the three stores are
  StatefulSets; no job is started on the old server while it runs, and a pod without an owner is a bundle's scratch
  pod, listed like a writer but writing and sending nothing; a shipment under way ends with its timer; no one starts
  k3s on the old server or edits its marker after `open` has read its evidence; the old clock does not step back
  before the stop; local pruning never removes the newest bundle; a remote command has ended before the next attempt
  begins. Of done steps run again by hand before the new server is open only `mute` is looked at
  (`ClusterProtocol.MuteGap`); a `run` begun anew after a complete one is not modelled.
- `ClusterRuns.NothingIsLost`: excepts what `ClusterLoss.StopIsSafeIff` shows to be the exact exceptions.
- `ClusterWorld.WritersLeft`: the order of the names listed.
- `ClusterMove.Run.RepointEdges`: each edge's requests are one command; `EdgeZone` and `ArvanZone` have them one by one.
- The move: the mute's rules packet by packet (a loaded table lets nothing out), the pulled registries, the install
  of k3s and the disk and clock figures of `check`.
- Shipping: a state machine on values rather than a class, since two processes share its state; shipping is
  configured throughout; one project, no two bundles of one second; `mc` killed while a key is half sent leaves
  the key absent or whole.
- Retention: the calendar; periods are arbitrary functions, windows arbitrary spans.
- BundleNames: Python's strptime also takes non-ASCII digits; the model's digits are ASCII.
- Edge chains: an edge chain's own contents are a function from packets to verdicts (`Kernel.decide`), so the
  atomic rewrite of a chain, unhook's flush and deletion of it, and the MSS clamp are not modelled.
- Renderer: YAML, names and hashes are functions given from outside; probes, resources, host aliases, Traefik
  middlewares (the code does not check their references), the monitoring rewrites and the scrape calls.
- Renderer: environment values arrive as the `host:port`s they name; label keys arrive read.
- `EdgeChain.Host.Unhook`: does not flush and remove the chain itself, only the jumps to it.
- `Renderer.RenderPod`: leaves out the refusals of labels, the workload's kind, probes, node selectors and host aliases.
- `Renderer.Render`: leaves out unknown compose keys, restart policies, jobs and the scrape calls.
- `RendererClosure.PodIsClosed`: a file mount names a key of its object; that the object holds that key is not tracked.
- `Tags.AppInputs`: gives the lines as a set; the source sorts them by path.
- Tags: `git`, Nx's files and the regular expressions are readings given from outside; the digest is not modelled,
  its input is; the Dockerfile branch. The closure is computed for the one project whose result is read.
- `Tags.OtherProjectsDoNotCount`: asks for projects that do not nest; and a seed script inside a project the app needs can change what that project
  imports, so the lemma asks that differing seed scripts be in no project.
- Registry: manifests and garbage collection; a deletion is by digest and immediate.
- Release: production's commit is its checkout's, as the code reads it; after a deploy that was rolled back the
  running release is older than that, and the twin starts from the checkout. HEAD does not move during a command,
  commands run one at a time, and a record file is written whole.
- ReplicaRestore: nothing but the restores changes a workload between them; data is restored elsewhere.
- Zones: the providers keep an updated record in its place in the listing; lists of leaks; retries of a request;
  lower-casing and trailing dots of names; a target record without addresses, which raises IndexError in
  `arvan_zone.plan` when no address is given, counts as refused.
- `Scrub.ScrubThenGuard`: the panels' part of the guard; the people's is `People.Table.ScrubPhones` and its like.
- Scrub: URLs arrive split; local panels have IPv4 addresses. People: the JSON destinations, the constant columns,
  Redis keys and queued messages.
- `tools/where.py` scoring, the misses file and the reports; the documentation checkers; staging's proxy, bots and
  gate; `scripts/move/server_move.py`, a simpler instance of the move.

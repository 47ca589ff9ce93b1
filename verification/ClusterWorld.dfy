/** The two servers of a cluster move and everything that can happen to them between two
    commands of the driver (scripts/move/cluster_fence.py, cluster_move.py, cluster_open.py).

    What is assumed of the world: only the driver changes replica counts; the three stores are
    StatefulSets; a pod without an owner is a bundle's scratch pod, which writes and sends nothing;
    no one starts or stops k3s on the old server, or edits its marker, once `open` has read its
    evidence; the old server's clock does not step back before the stop. Whether the stop scaled
    every workload is not assumed: `halted` says it. */
module ClusterWorld {
  import opened Wrappers

  // --- Pods and workloads ----------------------------------------------------

  const NAMESPACES: set<string> := {"txnet", "txnet-monitoring"}
  const STORES: set<string> := {"main-db", "memory-data", "rabbitmq"}

  datatype Owner = DaemonSet | StatefulSet(name: string) | ReplicaSet(deployment: string) | Other
  datatype Pod = Pod(ns: string, name: string, finished: bool, owners: seq<Owner>)

  datatype Kind = IsDeployment | IsStatefulSet
  datatype Workload = Workload(ns: string, kind: Kind, name: string)

  /** A live pod of the platform that is neither a log shipper nor a kept store. */
  predicate Listed(p: Pod, keep: set<string>) {
    && p.ns in NAMESPACES
    && !p.finished
    && forall o :: o in p.owners ==> !o.DaemonSet? && !(o.StatefulSet? && o.name in keep)
  }

  // The throwaway pod a bundle packs a volume in.
  predicate Scratch(p: Pod) { p.owners == [] }

  /** One that writes, and sends. */
  predicate Writes(p: Pod, keep: set<string>) { Listed(p, keep) && !Scratch(p) }

  /** writers_left: each such pod as often as it is listed, a scratch pod too, and no other. */
  method WritersLeft(pods: seq<Pod>, keep: set<string>) returns (left: seq<Pod>)
    ensures forall p :: multiset(left)[p] == if Listed(p, keep) then multiset(pods)[p] else 0
    ensures left == [] <==> forall p :: p in pods ==> !Listed(p, keep)
  {
    left := [];
    for i := 0 to |pods|
      invariant forall p :: multiset(left)[p] == if Listed(p, keep) then multiset(pods[..i])[p] else 0
      invariant left == [] <==> forall p :: p in pods[..i] ==> !Listed(p, keep)
    {
      assert pods[..i + 1] == pods[..i] + [pods[i]];
      if Listed(pods[i], keep) {
        left := left + [pods[i]];
      }
    }
    assert pods[..|pods|] == pods;
  }

  predicate Controls(wl: Workload, p: Pod) {
    && p.ns == wl.ns
    && (if wl.kind.IsDeployment? then ReplicaSet(wl.name) else StatefulSet(wl.name)) in p.owners
  }

  // --- State -----------------------------------------------------------------

  type Write = int

  // One bundle at a time holds the lock: begun in the second of its name, then its data read.
  datatype Making = NotMaking | Begun(at: int) | HasRead(at: int, snapshot: seq<Write>)

  datatype Old = Old(
    k3sActive: bool, k3sEnabled: bool,
    marker: string,
    replicas: map<Workload, nat>,
    pods: seq<Pod>,
    timersActive: bool, timersEnabled: bool,
    clock: int,
    log: seq<Write>,                     // every write ever made
    bundles: map<int, seq<Write>>,       // a bundle's second -> the writes in it
    making: Making)

  datatype New = New(
    muteFile: bool, muteUnit: bool, muteEnabled: bool, muteLoaded: bool,
    k3sActive: bool,
    pods: seq<Pod>,
    timersActive: bool,
    staged: map<int, seq<Write>>,        // bundles in /dev/shm/txnet-move
    restored: Option<seq<Write>>,        // the writes in its data, after a whole restore
    since: seq<Write>)                   // and those it has made itself since

  datatype Mode = Rehearse | Move
  datatype Step = Check | Mute | Install | Deploy | Stop | Bundle | Restore | Fence | Open | Repoint

  const REHEARSE_STEPS: seq<Step> := [Check, Mute, Install, Deploy, Bundle, Restore]
  const MOVE_STEPS: seq<Step> := [Check, Mute, Install, Deploy, Stop, Bundle, Restore, Fence, Open, Repoint]

  function Steps(mode: Mode): seq<Step> { if mode.Move? then MOVE_STEPS else REHEARSE_STEPS }

  function Rank(step: Step): nat {
    match step
    case Check => 0
    case Mute => 1
    case Install => 2
    case Deploy => 3
    case Stop => 4
    case Bundle => 5
    case Restore => 6
    case Fence => 7
    case Open => 8
    case Repoint => 9
  }

  predicate InMode(mode: Mode, step: Step) {
    mode.Move? || !(step.Stop? || step.Fence? || step.Open? || step.Repoint?)
  }

  /** `Steps` lists exactly the mode's steps, in the order of `Rank`. */
  lemma StepsByRank(mode: Mode, step: Step)
    ensures step in Steps(mode) <==> InMode(mode, step)
    ensures forall i, j :: 0 <= i < j < |Steps(mode)| ==> Rank(Steps(mode)[i]) < Rank(Steps(mode)[j])
  {
    if mode.Move? {
      assert MOVE_STEPS[Rank(step)] == step;
    } else if InMode(mode, step) {
      assert REHEARSE_STEPS[if Rank(step) < 4 then Rank(step) else Rank(step) - 1] == step;
    }
  }

  // .move/cluster.json
  datatype Saved = Saved(mode: Mode, done: set<Step>, stopAt: int, bundle: int)

  datatype World = World(
    source: Old, target: New, saved: Saved,
    edgeAtNew: bool,        // Cloudflare's records
    domesticAtNew: bool,    // Arvan's
    opening: bool,          // `open` has read its evidence: hands off the old server from here
    steppedBack: bool,      // the old server's clock stepped back, after the stop
    halted: bool,           // when the stop was saved, every workload but the stores was at zero
    clean: bool)            // and no bundle of its very second had missed a write

  // --- Who can send outside --------------------------------------------------

  predicate SendingPod(pods: seq<Pod>) { exists p :: p in pods && Writes(p, {}) }

  predicate OldSends(o: Old) { SendingPod(o.pods) || o.timersActive }

  predicate NewHolds(n: New) { SendingPod(n.pods) || n.timersActive }

  predicate NewSends(n: New) { !n.muteLoaded && NewHolds(n) }

  predicate OneWriter(w: World) { !(OldSends(w.source) && NewSends(w.target)) }

  // --- Facts no event outside the driver can undo -----------------------------

  predicate StoresAreStateful(replicas: map<Workload, nat>) {
    forall wl :: wl in replicas && wl.ns in NAMESPACES && wl.name in STORES ==> wl.kind.IsStatefulSet?
  }

  predicate Scaled(replicas: map<Workload, nat>, keep: set<string>) {
    forall wl :: wl in replicas && wl.ns in NAMESPACES && replicas[wl] > 0 ==> wl.name in keep
  }

  /** No workload but the kept ones runs or can start. */
  predicate Quiet(o: Old, keep: set<string>) {
    Scaled(o.replicas, keep) && forall p :: p in o.pods ==> !Writes(p, keep)
  }

  predicate TimersOff(o: Old) { !o.timersActive && !o.timersEnabled }

  predicate Stopped(o: Old) { Quiet(o, STORES) && TimersOff(o) }

  /** No bundle of second `at`, made or being made, misses a write. */
  predicate SecondIsWhole(o: Old, at: int) {
    && (at in o.bundles ==> o.bundles[at] == o.log)
    && (o.making.HasRead? && o.making.at == at ==> o.making.snapshot == o.log)
  }

  predicate Down(o: Old) { Quiet(o, {}) && TimersOff(o) }

  predicate Closed(w: World, address: string) {
    && w.opening
    && Down(w.source)
    && !w.source.k3sActive && !w.source.k3sEnabled
    && w.source.marker == address
  }

  predicate NewQuiet(n: New) { !n.k3sActive && !NewHolds(n) }

  predicate Muted(n: New) { n.muteFile && n.muteUnit && n.muteEnabled && n.muteLoaded }

  // The bundle being made, if its data is read, holds every write.
  predicate CleanMaking(o: Old) {
    Stopped(o) && (o.making.HasRead? ==> o.making.snapshot == o.log)
  }

  predicate Reaches(bundles: map<int, seq<Write>>, at: int) { exists c :: c in bundles && at <= c }

  /** A bundle begun at `at`, after the stop, is in the directory or a newer one is. */
  predicate FreshSince(o: Old, at: int) {
    && CleanMaking(o)
    && Reaches(o.bundles, at)
    && (at in o.bundles ==> o.bundles[at] == o.log)
  }

  /** `snapshot`, from the bundle of second `c`, lost nothing: unless the stop left a workload
      running, or the clock stepped back after it and this is a bundle of its very second. */
  predicate Whole(w: World, snapshot: seq<Write>, c: int) {
    w.halted ==> snapshot == w.source.log || (w.steppedBack && !w.clean && c == w.saved.stopAt)
  }

  // --- The invariant of every state -------------------------------------------

  predicate DoneInOrder(s: Saved) {
    && (forall x :: x in s.done ==> InMode(s.mode, x))
    && (forall x, y :: y in s.done && InMode(s.mode, x) && Rank(x) < Rank(y) ==> x in s.done)
  }

  predicate MuteInv(w: World, address: string) {
    && (NewQuiet(w.target) || Muted(w.target) || Closed(w, address))
    && (w.target.timersActive ==> Closed(w, address))
    && (Mute !in w.saved.done ==> NewQuiet(w.target))
    && (Mute in w.saved.done ==> Muted(w.target) || Closed(w, address))
    && (w.opening ==> Closed(w, address) && Fence in w.saved.done)
    && (Open in w.saved.done ==> w.opening)
  }

  predicate EdgeInv(w: World) {
    && (w.edgeAtNew ==> Open in w.saved.done)
    && (w.domesticAtNew ==> w.edgeAtNew)
    && (Repoint in w.saved.done ==> w.domesticAtNew)
  }

  predicate OldInv(w: World) {
    && StoresAreStateful(w.source.replicas)
    && (w.source.k3sEnabled ==> w.source.k3sActive)
    && (Stop in w.saved.done ==> TimersOff(w.source))
    && (Stop in w.saved.done && w.halted ==> Quiet(w.source, STORES))
    && (Fence in w.saved.done ==> Down(w.source) && w.source.k3sActive == w.source.k3sEnabled)
    && (w.saved.mode.Move? && (Bundle in w.saved.done || Restore in w.saved.done) ==> Stop in w.saved.done)
  }

  predicate BundleInv(w: World) {
    var o := w.source;
    if Stop !in w.saved.done then
      && !w.steppedBack
      && (forall c :: c in o.bundles ==> c <= o.clock)
      && (!o.making.NotMaking? ==> o.making.at <= o.clock)
    else
      && (!w.steppedBack ==> w.saved.stopAt <= o.clock)
      && (w.halted ==>
        && (forall c :: c in o.bundles && c > w.saved.stopAt ==> o.bundles[c] == o.log)
        && (o.making.HasRead? && o.making.at > w.saved.stopAt ==> o.making.snapshot == o.log)
        && (w.clean ==> SecondIsWhole(o, w.saved.stopAt)))
  }

  predicate DataInv(w: World) {
    var s, n := w.saved, w.target;
    s.mode.Move? ==>
      && (Bundle in s.done && s.bundle in n.staged ==> Whole(w, n.staged[s.bundle], s.bundle))
      && (Restore in s.done ==> n.restored.Some? && Whole(w, n.restored.value, s.bundle))
  }

  predicate Inv(w: World, address: string) {
    DoneInOrder(w.saved) && MuteInv(w, address) && EdgeInv(w) && OldInv(w) && BundleInv(w) && DataInv(w)
  }

  // --- Events outside the driver ----------------------------------------------

  datatype Event =
    | OldPods(pods: seq<Pod>)              // pods start, finish and die
    | Writing(x: Write)                    // the platform writes
    | Hands(start: bool, marker: string)   // k3s started or stopped by hand, the marker edited
    | RebootOld
    | Clock(to: int)
    | BeginBundle | ReadBundle | PublishBundle | AbortBundle
    | PruneBundles(left: set<int>)         // never the newest (BUNDLES_KEPT)
    | NewPods(pods: seq<Pod>)
    | NewWriting(x: Write)
    | RebootNew

  predicate Startable(o: Old, p: Pod) {
    Listed(p, {}) ==>
      o.k3sActive && (Scratch(p) || exists wl :: wl in o.replicas && o.replicas[wl] > 0 && Controls(wl, p))
  }

  predicate Possible(w: World, e: Event) {
    var o := w.source;
    match e
    case OldPods(pods) => forall p :: p in pods && p !in o.pods ==> Startable(o, p)
    case Writing(x) => exists p :: p in o.pods && Writes(p, STORES)
    case Hands(start, marker) => !w.opening
    case RebootOld => true
    case Clock(to) => o.clock <= to || Stop in w.saved.done
    case BeginBundle => o.making.NotMaking?
    case ReadBundle => o.making.Begun? && o.k3sActive  // it dumps through kubectl
    case PublishBundle => o.making.HasRead?
    case AbortBundle => true
    case PruneBundles(left) => left <= o.bundles.Keys && forall c :: c in o.bundles ==> Reaches(Pruned(o.bundles, left), c)
    case NewPods(pods) => w.target.k3sActive || forall p :: p in pods ==> p in w.target.pods
    case NewWriting(x) => SendingPod(w.target.pods)
    case RebootNew => true
  }

  function Pruned(bundles: map<int, seq<Write>>, left: set<int>): (r: map<int, seq<Write>>)
    ensures r.Keys == left * bundles.Keys && forall c :: c in r ==> r[c] == bundles[c]
  {
    map c | c in left && c in bundles :: bundles[c]
  }

  function OldAfter(o: Old, e: Event): Old {
    match e
    case OldPods(pods) => o.(pods := pods)
    case Writing(x) => o.(log := o.log + [x])
    case Hands(start, marker) => o.(k3sActive := start, k3sEnabled := start, marker := marker)
    case RebootOld => o.(k3sActive := o.k3sEnabled, timersActive := o.timersEnabled, pods := [])
    case Clock(to) => o.(clock := to)
    case BeginBundle => o.(making := Begun(o.clock))
    case ReadBundle => if o.making.Begun? then o.(making := HasRead(o.making.at, o.log)) else o
    case PublishBundle =>
      if !o.making.HasRead? then o else
      o.(bundles := o.bundles[o.making.at := o.making.snapshot], making := NotMaking)
    case AbortBundle => o.(making := NotMaking)
    case PruneBundles(left) => o.(bundles := Pruned(o.bundles, left))
    case _ => o
  }

  function NewAfter(n: New, e: Event): New {
    match e
    case NewPods(pods) => n.(pods := pods)
    case NewWriting(x) => n.(since := n.since + [x])
    // the unit is ordered before k3s: the table is there before any pod
    case RebootNew => n.(muteLoaded := n.muteEnabled && n.muteUnit && n.muteFile, pods := [], staged := map[])
    case _ => n
  }

  function Happens(w: World, e: Event): World {
    w.(source := OldAfter(w.source, e), target := NewAfter(w.target, e),
       steppedBack := w.steppedBack || (e.Clock? && e.to < w.source.clock))
  }

  /** Every bundle now there was there before, or holds every write. */
  predicate OldOrWhole(before: Old, o: Old) {
    forall c :: c in o.bundles ==>
      o.bundles[c] == before.log || (c in before.bundles && o.bundles[c] == before.bundles[c])
  }

  /** Only the driver writes the state file. */
  lemma EventSavesNothing(w: World, e: Event)
    ensures Happens(w, e).saved == w.saved && Happens(w, e).opening == w.opening
    ensures Happens(w, e).halted == w.halted && Happens(w, e).clean == w.clean
    ensures Happens(w, e).source.replicas == w.source.replicas
  {
  }

  /** What no event outside the driver undoes on the old server. */
  ghost predicate KeptOld(a: Old, b: Old) {
    && b.replicas == a.replicas
    && (a.k3sActive == a.k3sEnabled ==> b.k3sActive == b.k3sEnabled)
    && (TimersOff(a) ==> TimersOff(b))
    && (Quiet(a, STORES) ==> Quiet(b, STORES) && b.log == a.log)
    && (Quiet(a, {}) ==> Quiet(b, {}))
    && (CleanMaking(a) ==> CleanMaking(b) && OldOrWhole(a, b))
    && (forall at :: FreshSince(a, at) ==> FreshSince(b, at))
  }

  /** The new server's data is what was restored, and whatever it has written since. */
  predicate DataStays(a: New, b: New) { b.restored == a.restored && a.since <= b.since }

  predicate KeptNew(a: New, b: New) {
    && (Muted(a) ==> Muted(b))
    && b.muteFile == a.muteFile && b.muteUnit == a.muteUnit && b.muteEnabled == a.muteEnabled
    && DataStays(a, b)
    && (forall c :: c in b.staged ==> c in a.staged && b.staged[c] == a.staged[c])
  }

  /** What no event outside the driver undoes. */
  ghost predicate Kept(a: World, b: World) {
    && b.saved == a.saved && b.opening == a.opening
    && b.edgeAtNew == a.edgeAtNew && b.domesticAtNew == a.domesticAtNew
    && b.halted == a.halted && b.clean == a.clean
    && (a.steppedBack ==> b.steppedBack)
    && KeptOld(a.source, b.source) && KeptNew(a.target, b.target)
  }

  /** A quiet cluster stays quiet: what it could start is a kept store's, and no writer. */
  lemma QuietStays(o: Old, keep: set<string>, pods: seq<Pod>)
    requires keep <= STORES && StoresAreStateful(o.replicas)
    requires Quiet(o, keep)
    requires forall p :: p in pods && p !in o.pods ==> Startable(o, p)
    ensures Quiet(o.(pods := pods), keep)
  {
    forall p | p in pods ensures !Writes(p, keep) {
      if p !in o.pods { assert Startable(o, p); }
    }
  }

  lemma PodsKeepInv(w: World, pods: seq<Pod>, address: string)
    requires Inv(w, address) && Possible(w, OldPods(pods))
    ensures Inv(Happens(w, OldPods(pods)), address)
  {
    var o := w.source;
    if Quiet(o, STORES) { QuietStays(o, STORES, pods); }
    if Quiet(o, {}) { QuietStays(o, {}, pods); }
  }

  lemma PodsAreKept(w: World, pods: seq<Pod>, address: string)
    requires Inv(w, address) && Possible(w, OldPods(pods))
    ensures Kept(w, Happens(w, OldPods(pods)))
  {
    var o := w.source;
    if Quiet(o, STORES) { QuietStays(o, STORES, pods); }
    if Quiet(o, {}) { QuietStays(o, {}, pods); }
    SameBundlesStayFresh(o, Happens(w, OldPods(pods)).source);
  }

  lemma FreshStays(o: Old, o': Old)
    requires CleanMaking(o) ==> CleanMaking(o') && o'.log == o.log && OldOrWhole(o, o')
    requires forall c :: c in o.bundles ==> Reaches(o'.bundles, c)
    ensures forall at :: FreshSince(o, at) ==> FreshSince(o', at)
  {
    forall at | FreshSince(o, at) ensures FreshSince(o', at) {
      var c :| c in o.bundles && at <= c;
      var d :| d in o'.bundles && c <= d;
    }
  }

  lemma SameBundlesStayFresh(o: Old, o': Old)
    requires o'.bundles == o.bundles && o'.log == o.log && (CleanMaking(o) ==> CleanMaking(o'))
    ensures forall at :: FreshSince(o, at) ==> FreshSince(o', at)
  {
  }

  lemma PublishIsKept(w: World, address: string)
    requires Inv(w, address) && Possible(w, PublishBundle)
    ensures Kept(w, Happens(w, PublishBundle))
  {
    var o, o' := w.source, Happens(w, PublishBundle).source;
    forall c | c in o.bundles ensures Reaches(o'.bundles, c) { assert c in o'.bundles && c <= c; }
    FreshStays(o, o');
  }

  lemma PruneIsKept(w: World, left: set<int>, address: string)
    requires Inv(w, address) && Possible(w, PruneBundles(left))
    ensures Kept(w, Happens(w, PruneBundles(left)))
  {
    FreshStays(w.source, Happens(w, PruneBundles(left)).source);
  }

  predicate OfBundles(e: Event) {
    e.BeginBundle? || e.ReadBundle? || e.PublishBundle? || e.AbortBundle? || e.PruneBundles?
  }

  predicate OfTheNew(e: Event) { e.NewPods? || e.NewWriting? || e.RebootNew? }

  lemma BundleEventKeepsInv(w: World, e: Event, address: string)
    requires Inv(w, address) && Possible(w, e) && OfBundles(e)
    ensures Inv(Happens(w, e), address)
  {
  }

  lemma NewEventKeepsInv(w: World, e: Event, address: string)
    requires Inv(w, address) && Possible(w, e) && OfTheNew(e)
    ensures Inv(Happens(w, e), address)
  {
  }

  lemma OldEventKeepsInv(w: World, e: Event, address: string)
    requires Inv(w, address) && Possible(w, e) && !OfBundles(e) && !OfTheNew(e) && !e.OldPods?
    ensures Inv(Happens(w, e), address)
  {
  }

  /** No event outside the driver breaks the invariant. */
  lemma EventKeepsInv(w: World, e: Event, address: string)
    requires Inv(w, address) && Possible(w, e)
    ensures Inv(Happens(w, e), address)
  {
    if e.OldPods? {
      PodsKeepInv(w, e.pods, address);
    } else if OfBundles(e) {
      BundleEventKeepsInv(w, e, address);
    } else if OfTheNew(e) {
      NewEventKeepsInv(w, e, address);
    } else {
      OldEventKeepsInv(w, e, address);
    }
  }

  lemma MakingIsKept(w: World, e: Event, address: string)
    requires Inv(w, address) && Possible(w, e) && (e.BeginBundle? || e.ReadBundle? || e.AbortBundle?)
    ensures Kept(w, Happens(w, e))
  {
    SameBundlesStayFresh(w.source, Happens(w, e).source);
  }

  lemma OldEventIsKept(w: World, e: Event, address: string)
    requires Inv(w, address) && Possible(w, e) && !OfBundles(e) && !OfTheNew(e) && !e.OldPods?
    ensures Kept(w, Happens(w, e))
  {
    if !e.Writing? { SameBundlesStayFresh(w.source, Happens(w, e).source); }
  }

  /** Nor what the steps rest on. */
  lemma EventIsKept(w: World, e: Event, address: string)
    requires Inv(w, address) && Possible(w, e)
    ensures Kept(w, Happens(w, e))
  {
    if e.OldPods? {
      PodsAreKept(w, e.pods, address);
    } else if e.PublishBundle? {
      PublishIsKept(w, address);
    } else if e.PruneBundles? {
      PruneIsKept(w, e.left, address);
    } else if OfBundles(e) {
      MakingIsKept(w, e, address);
    } else if !OfTheNew(e) {
      OldEventIsKept(w, e, address);
    }
  }

  // --- What the invariant means -----------------------------------------------

  /** One writer at any moment; and an open new server means a closed old one. */
  lemma InvIsOneWriter(w: World, address: string)
    requires Inv(w, address)
    ensures OneWriter(w)
    ensures NewSends(w.target) ==>
      w.source.marker == address && !w.source.k3sActive && !SendingPod(w.source.pods) && !w.source.timersActive
  {
  }

  /** Once `open` has run, every write ever made on the old server is in the new one's data: if
      the stop scaled every workload, and no half-written bundle of its second could be taken. */
  lemma InvIsNothingLost(w: World, address: string)
    requires Inv(w, address) && (Open in w.saved.done || NewSends(w.target))
    ensures w.target.restored.Some?
    ensures w.halted && (!w.steppedBack || w.clean || w.saved.bundle != w.saved.stopAt) ==>
      w.target.restored.value == w.source.log
  {
    assert Fence in w.saved.done && Rank(Restore) < Rank(Fence);
  }
}

/** The driver of a cluster move: its steps' commands in their order, what each needs to come
    back without an error, and what a step cut off after any of them has brought about
    (scripts/move/cluster_move.py, cluster_open.py). */
module ClusterProtocol {
  import opened ClusterWorld
  import opened Wrappers

  // --- Decisions (cluster_fence.py, cluster_run.py) ---------------------------

  /** out_of_order: a step the mode lacks, or one before whose turn it is. */
  predicate OutOfOrder(s: Saved, step: Step) {
    !InMode(s.mode, step) || exists x :: x in Steps(s.mode) && Rank(x) < Rank(step) && x !in s.done
  }

  /** not_fenced */
  predicate NotFenced(o: Old, address: string) { o.k3sActive || o.marker != address }

  /** stale_bundle */
  predicate Stale(created: int, stopAt: int) { created < stopAt }

  // ASK_BEFORE: the platform goes down, the edges move.
  predicate AskBefore(mode: Mode, step: Step) { mode.Move? && (step.Stop? || step.Repoint?) }

  function Without(steps: seq<Step>, done: set<Step>): (r: seq<Step>)
    ensures forall x :: x in r <==> x in steps && x !in done
  {
    if steps == [] then [] else
    (if steps[0] in done then [] else [steps[0]]) + Without(steps[1..], done)
  }

  function Pending(s: Saved): seq<Step> { Without(Steps(s.mode), s.done) }

  /** continues: the same unfinished run, its servers being the same. */
  predicate Continues(s: Saved, mode: Mode) { s.mode == mode && Pending(s) != [] }

  lemma {:induction false} WithoutOneMore(steps: seq<Step>, done: set<Step>)
    requires forall i, j :: 0 <= i < j < |steps| ==> steps[i] != steps[j]
    requires Without(steps, done) != []
    ensures Without(steps, done + {Without(steps, done)[0]}) == Without(steps, done)[1..]
  {
    var x := Without(steps, done)[0];
    if steps[0] in done {
      WithoutOneMore(steps[1..], done);
    } else {
      assert x == steps[0] && x !in steps[1..];
      WithoutUnlisted(steps[1..], done, x);
    }
  }

  lemma {:induction false} WithoutUnlisted(steps: seq<Step>, done: set<Step>, x: Step)
    requires x !in steps
    ensures Without(steps, done + {x}) == Without(steps, done)
  {
    if steps != [] { WithoutUnlisted(steps[1..], done, x); }
  }

  lemma {:induction false} FirstWithoutIsLeast(steps: seq<Step>, done: set<Step>, x: Step)
    requires forall i, j :: 0 <= i < j < |steps| ==> Rank(steps[i]) < Rank(steps[j])
    requires x in steps && x !in done
    ensures Without(steps, done) != []
    ensures Without(steps, done)[0] == x <==> forall y :: y in steps && Rank(y) < Rank(x) ==> y in done
  {
    if steps[0] in done {
      FirstWithoutIsLeast(steps[1..], done, x);
      assert forall y :: y in steps <==> y == steps[0] || y in steps[1..];
    } else if x != steps[0] {
      var i :| 0 <= i < |steps| && steps[i] == x;
      assert steps[0] in steps && Rank(steps[0]) < Rank(x);
    }
  }

  lemma FirstIsInOrder(steps: seq<Step>, done: set<Step>, step: Step)
    requires forall i, j :: 0 <= i < j < |steps| ==> Rank(steps[i]) < Rank(steps[j])
    requires step in steps && step !in done
    ensures Without(steps, done) != []
    ensures (forall x :: x in steps && Rank(x) < Rank(step) ==> x in done) <==> Without(steps, done)[0] == step
    ensures Without(steps, done)[0] == step ==> Without(steps, done + {step}) == Without(steps, done)[1..]
  {
    FirstWithoutIsLeast(steps, done, step);
    assert forall i, j :: 0 <= i < j < |steps| ==> Rank(steps[i]) < Rank(steps[j]);
    WithoutOneMore(steps, done);
  }

  /** A step not done is in order exactly when it is the first pending one; then it leaves the
      others pending. */
  lemma InOrderIsFirstPending(s: Saved, step: Step)
    requires InMode(s.mode, step) && step !in s.done
    ensures Pending(s) != []
    ensures !OutOfOrder(s, step) <==> Pending(s)[0] == step
    ensures !OutOfOrder(s, step) ==> Pending(s.(done := s.done + {step})) == Pending(s)[1..]
  {
    StepsByRank(s.mode, step);
    FirstIsInOrder(Steps(s.mode), s.done, step);
  }

  /** In order: every earlier step of the mode is done. */
  lemma {:induction false} EarlierAreDone(s: Saved, step: Step)
    requires DoneInOrder(s) && step !in s.done && !OutOfOrder(s, step)
    ensures InMode(s.mode, step)
    ensures forall x :: InMode(s.mode, x) ==> (x in s.done <==> Rank(x) < Rank(step))
  {
    forall x | InMode(s.mode, x) && Rank(x) < Rank(step) ensures x in s.done {
      StepsByRank(s.mode, x);
    }
    assert forall x :: Rank(x) == Rank(step) ==> x == step;
  }

  /** What is done when a step's turn has come. */
  lemma DoneInTurn(s: Saved, step: Step)
    requires DoneInOrder(s) && step !in s.done && !OutOfOrder(s, step)
    ensures InMode(s.mode, step)
    ensures step.Install? ==> Mute in s.done
    ensures step.Stop? ==> Fence !in s.done
    ensures step.Bundle? && s.mode.Move? ==> Stop in s.done
    ensures step.Restore? ==> Bundle in s.done
    ensures step.Bundle? || step.Restore? ==> Restore !in s.done
    ensures step.Fence? ==> Restore in s.done && Stop in s.done
    ensures step.Restore? && s.mode.Move? ==> Stop in s.done
    ensures step.Open? ==> Fence in s.done
    ensures step.Repoint? ==> Open in s.done
  {
    EarlierAreDone(s, step);
  }

  /** Done in order, what is done stays a prefix of the mode's steps. */
  lemma {:induction false} DoneStaysInOrder(s: Saved, step: Step)
    requires DoneInOrder(s) && step !in s.done && !OutOfOrder(s, step)
    ensures DoneInOrder(s.(done := s.done + {step}))
  {
    EarlierAreDone(s, step);
  }

  // --- Commands ---------------------------------------------------------------

  /** The remote commands. One that only reads has no effect and may only fail; `Poll` is the
      listing of pods that ends a wait. */
  datatype Command =
    | ReadImages
    | WriteMuteFile | WriteMuteUnit | DropTable | EnableMute | LoadTable
    | StartK3s
    | ScaleToZero(wl: Workload) | StopTimers | Poll(keep: set<string>)
    | NowBegins(at: int) | NowReads(at: int) | NowPublishes(at: int)
    | List(name: int) | Push(name: int, snapshot: seq<Write>)
    | RestoreBegins | RestoreEnds(written: seq<Write>) | ClearStaged(whole: bool)
    | ScaledAll | WriteMarker | DisableK3s | DisableAndStopK3s | ReadFence
    | ReadEvidence | DisableMute | StopMute | RemoveUnit | RemoveFile | StartTimers
    | PointEdge | PointDomestic
    | Save(step: Step, noted: int)  // the state file: with the stop's second, or the bundle's name

  predicate OnSource(c: Command) {
    c.ScaleToZero? || c.StopTimers? || c.NowBegins? || c.NowReads? || c.NowPublishes?
    || c.WriteMarker? || c.DisableK3s? || c.DisableAndStopK3s?
  }

  function Sent(w: World, c: Command, address: string): World {
    var o, n := w.source, w.target;
    match c
    case WriteMuteFile => w.(target := n.(muteFile := true))
    case WriteMuteUnit => w.(target := n.(muteUnit := true))
    case DropTable => w.(target := n.(muteLoaded := false))
    case EnableMute => w.(target := n.(muteEnabled := true))
    case LoadTable => w.(target := n.(muteLoaded := true))
    case StartK3s => w.(target := n.(k3sActive := true))
    case ScaleToZero(wl) => w.(source := o.(replicas := o.replicas[wl := 0]))
    case StopTimers => w.(source := o.(timersActive := false, timersEnabled := false))
    case NowBegins(_) => w.(source := OldAfter(o, BeginBundle))
    case NowReads(_) => w.(source := OldAfter(o, ReadBundle))
    case NowPublishes(_) => w.(source := OldAfter(o, PublishBundle))
    case Push(name, snapshot) => w.(target := n.(staged := n.staged[name := snapshot]))
    case RestoreBegins => w.(target := n.(restored := None, since := []))
    case RestoreEnds(written) => w.(target := n.(restored := Some(written), since := []))
    case ClearStaged(_) => w.(target := n.(staged := map[]))
    case WriteMarker => w.(source := o.(marker := address))
    case DisableK3s => w.(source := o.(k3sEnabled := false))
    case DisableAndStopK3s => w.(source := o.(k3sEnabled := false, k3sActive := false))
    case ReadEvidence => w.(opening := true)
    case DisableMute => w.(target := n.(muteEnabled := false))
    case StopMute => w.(target := n.(muteLoaded := false))
    case RemoveUnit => w.(target := n.(muteUnit := false))
    case RemoveFile => w.(target := n.(muteFile := false))
    case StartTimers => w.(target := n.(timersActive := true))
    case PointEdge => w.(edgeAtNew := true)
    case PointDomestic => w.(domesticAtNew := true)
    case Save(step, noted) => SavedAs(w, step, noted)
    case _ => w
  }

  function SavedAs(w: World, step: Step, noted: int): World {
    var s := w.saved;
    w.(saved := Saved(s.mode, s.done + {step}, if step.Stop? then noted else s.stopAt,
                      if step.Bundle? then noted else s.bundle),
       halted := if step.Stop? then Scaled(w.source.replicas, STORES) else w.halted,
       clean := if step.Stop? then SecondIsWhole(w.source, noted) else w.clean)
  }

  /** What a command finds when it comes back without an error. */
  predicate Answers(w: World, c: Command, address: string) {
    var o, n := w.source, w.target;
    && (c.ReadImages? ==> o.k3sActive)
    && (c.ScaleToZero? ==> o.k3sActive && c.wl in o.replicas)
    && (c.ScaledAll? ==> Scaled(o.replicas, {}))  // `kubectl scale --all` ends with 0 only then
    && (c.Poll? ==> o.k3sActive && forall p :: p in o.pods ==> !Listed(p, c.keep))
    && (c.NowBegins? ==> o.making.NotMaking? && c.at == o.clock)  // else another run holds the lock
    && (c.NowReads? ==> o.making == Begun(c.at) && o.k3sActive)
    && (c.NowPublishes? ==> o.making.HasRead? && o.making.at == c.at)
    && (c.List? ==> c.name in o.bundles && forall b :: b in o.bundles ==> b <= c.name)
    && (c.List? && w.saved.mode.Move? ==> !Stale(c.name, w.saved.stopAt))
    && (c.Push? ==> c.name in o.bundles && c.snapshot == o.bundles[c.name])
    && (c.RestoreBegins? ==> w.saved.bundle in n.staged)
    && (c.RestoreEnds? ==> w.saved.bundle in n.staged && c.written == n.staged[w.saved.bundle])
    && (c.ReadFence? ==> !NotFenced(o, address))
    && (c.ReadEvidence? ==> !NotFenced(o, address))
    && (c.DisableMute? ==> n.muteUnit)
    && (c.StartTimers? ==> !n.muteLoaded)
    && (c.PointEdge? ==> !w.edgeAtNew)  // `edge_zone.py repoint` refuses when nothing is on the old address
    && (c.Save? && c.step.Stop? ==> c.noted == o.clock)
  }

  // --- The order of a step's commands -----------------------------------------

  predicate MuteOrder(last: Option<Command>, c: Command) {
    || (c.ReadImages? && last.None?)
    || (c.WriteMuteFile? && last == Some(ReadImages))
    || (c.WriteMuteUnit? && last == Some(WriteMuteFile))
    || (c.DropTable? && last == Some(WriteMuteUnit))
    || (c.EnableMute? && last == Some(DropTable))
    || (c.LoadTable? && last == Some(EnableMute))
    || (c.Save? && last == Some(LoadTable))
  }

  predicate Scaling(last: Option<Command>) { last.None? || last.value.ScaleToZero? }

  /** `stop` scales by a remote loop that passes over what fails, so by any of the commands. */
  predicate StopOrder(last: Option<Command>, c: Command) {
    || (c.ScaleToZero? && Scaling(last) && c.wl.ns in NAMESPACES && c.wl.name !in STORES)
    || (c.StopTimers? && Scaling(last))
    || (c.Poll? && last == Some(StopTimers) && c.keep == STORES)
    || (c.Save? && last == Some(Poll(STORES)))
  }

  predicate BundleOrder(mode: Mode, last: Option<Command>, c: Command) {
    || (c.Poll? && mode.Move? && last.None? && c.keep == STORES)
    || (c.NowBegins? && mode.Move? && last == Some(Poll(STORES)))
    || (c.NowReads? && mode.Move? && last == Some(NowBegins(c.at)))
    || (c.NowPublishes? && mode.Move? && last == Some(NowReads(c.at)))
    || (c.List? && (if mode.Move? then last.Some? && last.value.NowPublishes? else last.None?))
    || (c.Push? && last == Some(List(c.name)))
    || (c.Save? && last.Some? && last.value.Push? && last.value.name == c.noted)
  }

  /** A `restore` that fails clears what was staged all the same; whether the clearing succeeds is
      not looked at. */
  predicate RestoreOrder(last: Option<Command>, c: Command) {
    || (c.RestoreBegins? && last.None?)
    || (c.RestoreEnds? && last == Some(RestoreBegins))
    || (c.ClearStaged? && c.whole && last.Some? && last.value.RestoreEnds?)
    || (c.ClearStaged? && !c.whole && (last.None? || last.value.RestoreBegins?))
    || (c.Save? && (last == Some(ClearStaged(true)) || (last.Some? && last.value.RestoreEnds?)))
  }

  predicate FenceOrder(last: Option<Command>, c: Command) {
    || (c.ScaleToZero? && Scaling(last) && c.wl.ns in NAMESPACES)
    || (c.ScaledAll? && Scaling(last))
    || (c.Poll? && last == Some(ScaledAll) && c.keep == {})
    || (c.WriteMarker? && last == Some(Poll({})))
    || (c.DisableK3s? && last == Some(WriteMarker))
    || (c.DisableAndStopK3s? && last == Some(WriteMarker))
    || (c.ReadFence? && last == Some(DisableAndStopK3s))
    || (c.Save? && last == Some(ReadFence))
  }

  predicate OpenOrder(last: Option<Command>, c: Command) {
    || (c.ReadEvidence? && last.None?)
    || (c.DisableMute? && last == Some(ReadEvidence))
    || (c.StopMute? && last == Some(DisableMute))
    || (c.RemoveUnit? && last == Some(StopMute))
    || (c.RemoveFile? && last == Some(RemoveUnit))
    || (c.StartTimers? && last == Some(RemoveFile))
    || (c.Save? && last == Some(StartTimers))
  }

  predicate RepointOrder(last: Option<Command>, c: Command) {
    || (c.PointEdge? && last.None?)
    || (c.PointDomestic? && last == Some(PointEdge))
    || (c.Save? && last == Some(PointDomestic))
  }

  /** `c` is what the step sends after `last`; saving itself is its last command. */
  predicate Comes(mode: Mode, step: Step, last: Option<Command>, c: Command) {
    && (c.Save? ==> c.step == step)
    && match step
       case Check => last.None? && c.Save?
       case Mute => MuteOrder(last, c)
       case Install => if c.Save? then last == Some(StartK3s) else last.None? && c.StartK3s?
       case Deploy => last.None? && c.Save?  // nothing of what is modelled changes
       case Stop => StopOrder(last, c)
       case Bundle => BundleOrder(mode, last, c)
       case Restore => RestoreOrder(last, c)
       case Fence => FenceOrder(last, c)
       case Open => OpenOrder(last, c)
       case Repoint => RepointOrder(last, c)
  }

  // --- What an attempt at a step has brought about ------------------------------

  /** The driver's attempt at a step, up to the last command it sent. */
  datatype Attempt = Idle | Busy(step: Step, last: Option<Command>)

  predicate MuteAlong(n: New, last: Command) {
    && (last.WriteMuteFile? ==> n.muteFile)
    && (last.WriteMuteUnit? ==> n.muteFile && n.muteUnit)
    && (last.DropTable? ==> n.muteFile && n.muteUnit)
    && (last.EnableMute? ==> n.muteFile && n.muteUnit && n.muteEnabled)
    && (last.LoadTable? ==> Muted(n))
  }

  predicate StopAlong(o: Old, last: Command) {
    && (last.StopTimers? ==> TimersOff(o))
    && (last.Poll? ==> TimersOff(o))
    && (last.Poll? && Scaled(o.replicas, STORES) ==> Quiet(o, STORES))
  }

  predicate NotBeforeStop(w: World, at: int) { !w.steppedBack ==> w.saved.stopAt <= at }

  ghost predicate BundleAlong(w: World, last: Command) {
    && (last.NowBegins? && w.halted ==> CleanMaking(w.source) && NotBeforeStop(w, last.at))
    && (last.NowReads? && w.halted ==> CleanMaking(w.source) && NotBeforeStop(w, last.at))
    && (last.NowPublishes? && w.halted ==> FreshSince(w.source, last.at) && NotBeforeStop(w, last.at))
    && (last.List? && w.halted ==> CleanMaking(w.source))
    && (last.List? && last.name in w.source.bundles ==> Whole(w, w.source.bundles[last.name], last.name))
    && (last.Push? && last.name in w.target.staged ==> Whole(w, w.target.staged[last.name], last.name))
  }

  predicate RestoreAlong(w: World, last: Command) {
    && (last.ClearStaged? ==> w.target.staged == map[])
    && (w.saved.mode.Move? && (last.RestoreEnds? || last == ClearStaged(true)) ==>
      w.target.restored.Some? && Whole(w, w.target.restored.value, w.saved.bundle))
  }

  predicate FenceAlong(o: Old, last: Command) {
    && (last.ScaledAll? ==> Scaled(o.replicas, {}))
    && (last.Poll? ==> Quiet(o, {}))
    && (last.WriteMarker? ==> Quiet(o, {}))
    && (last.DisableK3s? ==> Quiet(o, {}))
    && (last.DisableAndStopK3s? ==> Quiet(o, {}))
    && (last.ReadFence? ==> Quiet(o, {}) && o.k3sActive == o.k3sEnabled)
  }

  predicate RepointAlong(w: World, last: Command) {
    && (last.PointEdge? ==> w.edgeAtNew)
    && (last.PointDomestic? ==> w.edgeAtNew && w.domesticAtNew)
  }

  ghost predicate Along(w: World, step: Step, last: Command) {
    match step
    case Mute => MuteAlong(w.target, last)
    case Stop => StopAlong(w.source, last)
    case Bundle => w.saved.mode.Move? ==> BundleAlong(w, last)
    case Restore => RestoreAlong(w, last)
    case Fence => FenceAlong(w.source, last)
    case Open => w.opening
    case Repoint => RepointAlong(w, last)
    case _ => true
  }

  /** run_all began it, in order. */
  predicate InTurn(s: Saved, at: Attempt) {
    at.Busy? ==> at.step !in s.done && !OutOfOrder(s, at.step)
  }

  ghost predicate Progress(w: World, at: Attempt) {
    InTurn(w.saved, at) && (at.Busy? && at.last.Some? ==> Along(w, at.step, at.last.value))
  }

  /** A bundle that holds every write stays one, overwritten or not. */
  lemma ListedStaysWhole(a: World, b: World, name: int)
    requires Kept(a, b) && (a.halted ==> CleanMaking(a.source))
    requires name in a.source.bundles ==> Whole(a, a.source.bundles[name], name)
    ensures name in b.source.bundles ==> Whole(b, b.source.bundles[name], name)
  {
  }

  lemma KeptBundleAlong(a: World, b: World, last: Command)
    requires Kept(a, b) && BundleAlong(a, last) && (a.halted ==> Quiet(a.source, STORES))
    ensures BundleAlong(b, last)
  {
    if last.List? { ListedStaysWhole(a, b, last.name); }
  }

  lemma KeptAlong(a: World, b: World, step: Step, last: Command)
    requires Kept(a, b) && Along(a, step, last) && !step.Bundle?
    requires step.Restore? && a.saved.mode.Move? && a.halted ==> Quiet(a.source, STORES)
    ensures Along(b, step, last)
  {
    if step.Restore? && last.ClearStaged? {
      assert forall c :: c in b.target.staged ==> c in a.target.staged;
    }
  }

  /** No event outside the driver undoes what its attempt has brought about. */
  lemma EventKeepsProgress(w: World, e: Event, at: Attempt, address: string)
    requires Inv(w, address) && Progress(w, at) && Possible(w, e)
    ensures Progress(Happens(w, e), at)
  {
    EventIsKept(w, e, address);
    if at.Busy? && at.last.Some? {
      EarlierAreDone(w.saved, at.step);
      if at.step.Bundle? {
        if w.saved.mode.Move? { KeptBundleAlong(w, Happens(w, e), at.last.value); }
      } else {
        KeptAlong(w, Happens(w, e), at.step, at.last.value);
      }
    }
  }

  // --- A command sent in its turn ----------------------------------------------

  predicate Sendable(w: World, at: Attempt, c: Command, address: string) {
    at.Busy? && Comes(w.saved.mode, at.step, at.last, c) && Answers(w, c, address)
  }

  /** The attempt, once `c` is sent: at an end when the state is saved. */
  function Going(at: Attempt, c: Command): Attempt
    requires at.Busy?
  {
    if c.Save? then Idle else at.(last := Some(c))
  }

  // Each command in the steps done before it, and the invariant.

  lemma MuteCommandKeepsInv(w: World, c: Command, address: string)
    requires Inv(w, address)
    requires c.WriteMuteFile? || c.WriteMuteUnit? || (c.DropTable? && Mute !in w.saved.done) || c.EnableMute?
      || c.LoadTable? || (c.StartK3s? && Mute in w.saved.done)
    ensures Inv(Sent(w, c, address), address)
  {
  }

  lemma ScaleKeepsInv(w: World, c: Command, address: string)
    requires Inv(w, address) && Answers(w, c, address) && (c.ScaleToZero? || c.StopTimers?)
    ensures Inv(Sent(w, c, address), address)
  {
  }

  lemma FenceCommandKeepsInv(w: World, c: Command, address: string)
    requires Inv(w, address) && Fence !in w.saved.done
    requires c.WriteMarker? || c.DisableK3s? || c.DisableAndStopK3s?
    ensures Inv(Sent(w, c, address), address)
  {
  }

  lemma DataCommandKeepsInv(w: World, c: Command, address: string)
    requires Inv(w, address) && Restore !in w.saved.done && (c.Push? ==> Bundle !in w.saved.done)
    requires c.Push? || c.RestoreBegins? || c.RestoreEnds? || c.ClearStaged?
    ensures Inv(Sent(w, c, address), address)
  {
  }

  lemma EvidenceKeepsInv(w: World, address: string)
    requires Inv(w, address) && Fence in w.saved.done && Answers(w, ReadEvidence, address)
    ensures Inv(Sent(w, ReadEvidence, address), address)
  {
  }

  /** The old server closed, the new one may be anything. */
  lemma OpenedKeepsInv(w: World, n: New, address: string)
    requires Inv(w, address) && w.opening && n.staged == w.target.staged && n.restored == w.target.restored
    ensures Inv(w.(target := n), address)
  {
  }

  lemma OpenCommandKeepsInv(w: World, c: Command, address: string)
    requires Inv(w, address) && w.opening
    requires c.DisableMute? || c.StopMute? || c.RemoveUnit? || c.RemoveFile? || c.StartTimers?
    ensures Inv(Sent(w, c, address), address)
  {
    OpenedKeepsInv(w, Sent(w, c, address).target, address);
  }

  lemma PointKeepsInv(w: World, c: Command, address: string)
    requires Inv(w, address) && (if c.PointEdge? then Open in w.saved.done else c.PointDomestic? && w.edgeAtNew)
    ensures Inv(Sent(w, c, address), address)
  {
  }

  // What it has brought about.

  lemma MuteGoesOn(w: World, last: Option<Command>, c: Command, address: string)
    requires MuteOrder(last, c) && !c.Save? && (last.Some? ==> MuteAlong(w.target, last.value))
    ensures MuteAlong(Sent(w, c, address).target, c)
  {
  }

  lemma StopGoesOn(w: World, last: Option<Command>, c: Command, address: string)
    requires StopOrder(last, c) && !c.Save? && (last.Some? ==> StopAlong(w.source, last.value))
    requires Answers(w, c, address)
    ensures StopAlong(Sent(w, c, address).source, c)
  {
  }

  lemma RestoreGoesOn(w: World, last: Option<Command>, c: Command, address: string)
    requires RestoreOrder(last, c) && !c.Save? && (last.Some? ==> RestoreAlong(w, last.value))
    requires DataInv(w) && Bundle in w.saved.done && Answers(w, c, address)
    ensures RestoreAlong(Sent(w, c, address), c)
  {
  }

  lemma FenceGoesOn(w: World, last: Option<Command>, c: Command, address: string)
    requires FenceOrder(last, c) && !c.Save? && (last.Some? ==> FenceAlong(w.source, last.value))
    requires Answers(w, c, address) && OldInv(w)
    ensures FenceAlong(Sent(w, c, address).source, c)
  {
  }

  lemma RepointGoesOn(w: World, last: Option<Command>, c: Command, address: string)
    requires RepointOrder(last, c) && !c.Save? && (last.Some? ==> RepointAlong(w, last.value))
    ensures RepointAlong(Sent(w, c, address), c)
  {
  }

  /** The driver's own bundle, once its name is there: it was begun after the stop, it is not
      stale unless the clock stepped back, and it holds every write. */
  lemma PublishedIsFresh(w: World, at: int, address: string)
    requires CleanMaking(w.source) && NotBeforeStop(w, at) && Answers(w, NowPublishes(at), address)
    ensures FreshSince(Sent(w, NowPublishes(at), address).source, at)
    ensures !w.steppedBack ==> !Stale(at, w.saved.stopAt)
  {
    assert at in Sent(w, NowPublishes(at), address).source.bundles && at <= at;
  }

  /** The greatest name in the directory, not older than the stop, once the driver's own bundle
      is there, holds every write: but after a step back of the clock, when it carries the stop's
      very second. */
  lemma CarriedIsWhole(w: World, at: int, name: int, address: string)
    requires Inv(w, address) && w.saved.mode.Move? && Stop in w.saved.done && w.halted
    requires FreshSince(w.source, at) && NotBeforeStop(w, at)
    requires Answers(w, List(name), address)
    ensures Whole(w, w.source.bundles[name], name)
    ensures !w.steppedBack || w.clean ==> w.source.bundles[name] == w.source.log
  {
    var c :| c in w.source.bundles && at <= c;
  }

  lemma NowKeepsInv(w: World, c: Command, address: string)
    requires Inv(w, address) && Answers(w, c, address) && (c.NowBegins? || c.NowReads? || c.NowPublishes?)
    ensures Inv(Sent(w, c, address), address)
  {
    match c
    case NowBegins(_) => EventKeepsInv(w, BeginBundle, address);
    case NowReads(_) => EventKeepsInv(w, ReadBundle, address);
    case NowPublishes(_) => EventKeepsInv(w, PublishBundle, address);
  }

  lemma BundleGoesOn(w: World, last: Option<Command>, c: Command, address: string)
    requires Inv(w, address) && w.saved.mode.Move? && Stop in w.saved.done && Answers(w, c, address)
    requires BundleOrder(w.saved.mode, last, c) && !c.Save? && (last.Some? ==> BundleAlong(w, last.value))
    ensures BundleAlong(Sent(w, c, address), c)
  {
    if w.halted {
      match c
      case NowPublishes(name) => PublishedIsFresh(w, name, address);
      case List(name) => CarriedIsWhole(w, last.value.at, name, address);
      case _ =>
    }
  }

  lemma SavedMute(w: World, at: Attempt, c: Command, address: string)
    requires Inv(w, address) && Progress(w, at) && Sendable(w, at, c, address) && c.Save?
    ensures MuteInv(Sent(w, c, address), address) && EdgeInv(Sent(w, c, address))
  {
    EarlierAreDone(w.saved, at.step);
  }

  lemma StopSavedOld(w: World, at: int)
    requires OldInv(w) && StopAlong(w.source, Poll(STORES)) && Fence !in w.saved.done
    ensures OldInv(SavedAs(w, Stop, at))
  {
  }

  lemma FenceSavedOld(w: World, noted: int)
    requires OldInv(w) && FenceAlong(w.source, ReadFence) && Stop in w.saved.done
    ensures OldInv(SavedAs(w, Fence, noted))
  {
  }

  lemma OtherSavedOld(w: World, at: Attempt, c: Command, address: string)
    requires Inv(w, address) && Progress(w, at) && Sendable(w, at, c, address) && c.Save?
    requires !at.step.Stop? && !at.step.Fence?
    ensures OldInv(Sent(w, c, address))
  {
    DoneInTurn(w.saved, at.step);
  }

  lemma SavedOld(w: World, at: Attempt, c: Command, address: string)
    requires Inv(w, address) && Progress(w, at) && Sendable(w, at, c, address) && c.Save?
    ensures OldInv(Sent(w, c, address))
  {
    DoneInTurn(w.saved, at.step);
    if at.step.Stop? {
      StopSavedOld(w, c.noted);
    } else if at.step.Fence? {
      FenceSavedOld(w, c.noted);
    } else {
      OtherSavedOld(w, at, c, address);
    }
  }

  lemma SavedBundles(w: World, at: Attempt, c: Command, address: string)
    requires Inv(w, address) && Progress(w, at) && Sendable(w, at, c, address) && c.Save?
    ensures BundleInv(Sent(w, c, address))
  {
    EarlierAreDone(w.saved, at.step);
  }

  lemma SavedData(w: World, at: Attempt, c: Command, address: string)
    requires Inv(w, address) && Progress(w, at) && Sendable(w, at, c, address) && c.Save?
    ensures DataInv(Sent(w, c, address))
  {
    EarlierAreDone(w.saved, at.step);
  }

  /** The state file says of a step that it is done only when it is. */
  lemma SaveKeepsInv(w: World, at: Attempt, c: Command, address: string)
    requires Inv(w, address) && Progress(w, at) && Sendable(w, at, c, address) && c.Save?
    ensures Inv(Sent(w, c, address), address)
  {
    DoneStaysInOrder(w.saved, at.step);
    SavedMute(w, at, c, address);
    SavedOld(w, at, c, address);
    SavedBundles(w, at, c, address);
    SavedData(w, at, c, address);
  }

  lemma HaltingKeepsInv(w: World, at: Attempt, c: Command, address: string)
    requires Inv(w, address) && Progress(w, at) && Sendable(w, at, c, address) && !c.Save?
    requires at.step.Stop? || at.step.Fence?
    ensures Inv(Sent(w, c, address), address)
  {
    if c.ScaleToZero? || c.StopTimers? {
      ScaleKeepsInv(w, c, address);
    } else if c.WriteMarker? || c.DisableK3s? || c.DisableAndStopK3s? {
      FenceCommandKeepsInv(w, c, address);
    }
  }

  lemma CarryingKeepsInv(w: World, at: Attempt, c: Command, address: string)
    requires Inv(w, address) && Progress(w, at) && Sendable(w, at, c, address) && !c.Save?
    requires at.step.Bundle? || at.step.Restore?
    ensures Inv(Sent(w, c, address), address)
  {
    DoneInTurn(w.saved, at.step);
    if c.NowBegins? || c.NowReads? || c.NowPublishes? {
      NowKeepsInv(w, c, address);
    } else if !c.Poll? && !c.List? {
      DataCommandKeepsInv(w, c, address);
    }
  }

  lemma FillingKeepsInv(w: World, at: Attempt, c: Command, address: string)
    requires Inv(w, address) && Progress(w, at) && Sendable(w, at, c, address) && !c.Save?
    requires at.step.Mute? || at.step.Install?
    ensures Inv(Sent(w, c, address), address)
  {
    DoneInTurn(w.saved, at.step);
    if !c.ReadImages? { MuteCommandKeepsInv(w, c, address); }
  }

  lemma OpeningKeepsInv(w: World, at: Attempt, c: Command, address: string)
    requires Inv(w, address) && Progress(w, at) && Sendable(w, at, c, address) && !c.Save?
    requires at.step.Open? || at.step.Repoint?
    ensures Inv(Sent(w, c, address), address)
  {
    DoneInTurn(w.saved, at.step);
    if at.step.Repoint? {
      PointKeepsInv(w, c, address);
    } else if c.ReadEvidence? {
      EvidenceKeepsInv(w, address);
    } else {
      OpenCommandKeepsInv(w, c, address);
    }
  }

  lemma CarryingGoesOn(w: World, at: Attempt, c: Command, address: string)
    requires Inv(w, address) && Progress(w, at) && Sendable(w, at, c, address) && !c.Save?
    requires at.step.Bundle? || at.step.Restore?
    ensures Along(Sent(w, c, address), at.step, c)
  {
    DoneInTurn(w.saved, at.step);
    if at.step.Restore? {
      RestoreGoesOn(w, at.last, c, address);
    } else if w.saved.mode.Move? {
      BundleGoesOn(w, at.last, c, address);
    }
  }

  lemma OthersGoOn(w: World, at: Attempt, c: Command, address: string)
    requires Inv(w, address) && Progress(w, at) && Sendable(w, at, c, address) && !c.Save?
    requires !at.step.Bundle? && !at.step.Restore?
    ensures Along(Sent(w, c, address), at.step, c)
  {
    match at.step {
      case Mute => MuteGoesOn(w, at.last, c, address);
      case Stop => StopGoesOn(w, at.last, c, address);
      case Fence => FenceGoesOn(w, at.last, c, address);
      case Repoint => RepointGoesOn(w, at.last, c, address);
      case _ =>
    }
  }

  lemma SendingKeepsInv(w: World, at: Attempt, c: Command, address: string)
    requires Inv(w, address) && Progress(w, at) && Sendable(w, at, c, address) && !c.Save?
    ensures Inv(Sent(w, c, address), address)
  {
    if at.step.Stop? || at.step.Fence? {
      HaltingKeepsInv(w, at, c, address);
    } else if at.step.Bundle? || at.step.Restore? {
      CarryingKeepsInv(w, at, c, address);
    } else if at.step.Mute? || at.step.Install? {
      FillingKeepsInv(w, at, c, address);
    } else if at.step.Open? || at.step.Repoint? {
      OpeningKeepsInv(w, at, c, address);
    }
  }

  lemma OldCommandSavesNothing(w: World, c: Command, address: string)
    requires OnSource(c)
    ensures Sent(w, c, address).saved == w.saved
    ensures Sent(w, c, address).halted == w.halted && Sent(w, c, address).clean == w.clean
  {
    if c.NowBegins? || c.NowReads? || c.NowPublishes? || c.ScaleToZero? { return; }
  }

  lemma NewCommandSavesNothing(w: World, c: Command, address: string)
    requires !c.Save? && !OnSource(c)
    ensures Sent(w, c, address).saved == w.saved
    ensures Sent(w, c, address).halted == w.halted && Sent(w, c, address).clean == w.clean
  {
    if c.Push? || c.RestoreBegins? || c.RestoreEnds? || c.ClearStaged? || c.ReadEvidence? || c.DisableMute? { return; }
  }

  lemma OnlySaveSaves(w: World, c: Command, address: string)
    requires !c.Save?
    ensures Sent(w, c, address).saved == w.saved
    ensures Sent(w, c, address).halted == w.halted && Sent(w, c, address).clean == w.clean
  {
    if OnSource(c) {
      OldCommandSavesNothing(w, c, address);
    } else {
      NewCommandSavesNothing(w, c, address);
    }
  }

  lemma GoingOn(s: Saved, at: Attempt, next: World, c: Command)
    requires at.Busy? && InTurn(s, at) && next.saved == s && !c.Save? && Along(next, at.step, c)
    ensures Progress(next, Going(at, c))
  {
  }

  lemma SendingGoesOn(w: World, at: Attempt, c: Command, address: string)
    requires Inv(w, address) && Progress(w, at) && Sendable(w, at, c, address) && !c.Save?
    ensures Along(Sent(w, c, address), at.step, c)
  {
    if at.step.Bundle? || at.step.Restore? {
      CarryingGoesOn(w, at, c, address);
    } else {
      OthersGoOn(w, at, c, address);
    }
  }

  /** A command sent in its turn, when it comes back without an error, keeps the invariant and
      brings about what the next one, or the saved state, rests on. */
  lemma CommandKeepsInv(w: World, at: Attempt, c: Command, address: string)
    requires Inv(w, address) && Progress(w, at) && Sendable(w, at, c, address)
    ensures Inv(Sent(w, c, address), address) && Progress(Sent(w, c, address), Going(at, c))
  {
    if c.Save? {
      SaveKeepsInv(w, at, c, address);
    } else {
      SendingKeepsInv(w, at, c, address);
      SendingGoesOn(w, at, c, address);
      OnlySaveSaves(w, c, address);
      GoingOn(w.saved, at, Sent(w, c, address), c);
    }
  }

  /** The steps of a rehearsal have no command that changes the old server. */
  lemma RehearsalOnlyReads(w: World, at: Attempt, c: Command, address: string)
    requires w.saved.mode.Rehearse? && Progress(w, at) && Sendable(w, at, c, address)
    ensures !OnSource(c) && Sent(w, c, address).source == w.source
  {
    RehearsedIsElsewhere(w, at, c);
    ElsewhereLeavesTheOld(w, c, address);
  }

  lemma RehearsedIsElsewhere(w: World, at: Attempt, c: Command)
    requires w.saved.mode.Rehearse? && Progress(w, at) && at.Busy? && Comes(w.saved.mode, at.step, at.last, c)
    ensures !OnSource(c)
  {
  }

  lemma ElsewhereLeavesTheOld(w: World, c: Command, address: string)
    requires !OnSource(c)
    ensures Sent(w, c, address).source == w.source
  {
    if c.Save? || c.Push? || c.RestoreBegins? || c.RestoreEnds? || c.ClearStaged? { return; }
  }

  // --- A second mute ----------------------------------------------------------

  /** The states `mute` takes the new server through, the old one standing still. */
  function MuteStates(w: World, address: string): seq<World> {
    var filed := Sent(Sent(w, WriteMuteFile, address), WriteMuteUnit, address);
    var dropped := Sent(filed, DropTable, address);
    var enabled := Sent(dropped, EnableMute, address);
    [w, filed, dropped, enabled, Sent(enabled, LoadTable, address)]
  }

  /** `mute` deletes its table before it loads it: there is one writer all the way exactly when
      one of the two servers holds nothing that could send. So an empty new server is what a
      run needs, and a second `mute` on a filled one is not safe while the old one sends. */
  lemma MuteGap(w: World, address: string)
    ensures (forall s :: s in MuteStates(w, address) ==> OneWriter(s))
      <==> !NewHolds(w.target) || !OldSends(w.source)
  {
    assert !OneWriter(MuteStates(w, address)[2]) <==> NewHolds(w.target) && OldSends(w.source);
  }
}

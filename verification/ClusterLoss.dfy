/** When a move loses a write: exactly when the stop left a workload running, or a bundle of its
    very second missed a write and the old clock then steps back
    (scripts/move/cluster_move.py, cluster_fence.py). */
module ClusterLoss {
  import opened ClusterWorld
  import opened ClusterProtocol
  import opened ClusterRuns
  import opened ClusterRerun
  import Sets
  import opened Wrappers

  predicate Lost(w: World) { w.target.restored != Some(w.source.log) }

  /** Whatever comes, once `open` is done the new server's data holds every write. */
  ghost predicate Safe(a: State, address: string) {
    forall b :: Leads(a, b, true, address) && Open in b.w.saved.done ==> !Lost(b.w)
  }

  /** The same, as long as the old clock does not step back. */
  ghost predicate SafeOnTime(a: State, address: string) {
    forall b :: Leads(a, b, true, address) && Open in b.w.saved.done && !b.w.steppedBack ==> !Lost(b.w)
  }

  // --- What the stop found stays known -------------------------------------------

  predicate SameStop(a: World, b: World) {
    && Stop in b.saved.done && b.halted == a.halted && b.clean == a.clean && b.saved.stopAt == a.saved.stopAt
  }

  lemma NextSameStop(s: State, h: Happening, address: string)
    requires CanHappen(s, h, address) && InTurn(s.w.saved, s.at) && Stop in s.w.saved.done
    ensures SameStop(s.w, Next(s, h, address).w)
  {
    NextSaved(s, h, address);
  }

  lemma {:induction false} ChainSameStop(seen: seq<Moment>, address: string)
    requires Chain(seen, true, address) && Holds(seen[0].s, address) && Stop in seen[0].s.w.saved.done
    ensures SameStop(seen[0].s.w, Last(seen).w)
    decreases |seen|
  {
    if |seen| > 1 {
      ChainSameStop(seen[..|seen| - 1], address);
      ChainHolds(seen, true, address, |seen| - 2);
      NextSameStop(seen[|seen| - 2].s, seen[|seen| - 1].how, address);
    }
  }

  lemma LeadsSameStop(a: State, b: State, address: string)
    requires Leads(a, b, true, address) && Holds(a, address) && Stop in a.w.saved.done
    ensures SameStop(a.w, b.w)
  {
    var seen: seq<Moment> :| Chain(seen, true, address) && seen[0].s == a && Last(seen) == b;
    ChainSameStop(seen, address);
  }

  lemma HaltedIsSafe(a: State, address: string)
    requires Holds(a, address) && Stop in a.w.saved.done && a.w.halted
    ensures SafeOnTime(a, address) && (a.w.clean ==> Safe(a, address))
  {
    forall b | Leads(a, b, true, address) && Open in b.w.saved.done
      ensures !b.w.steppedBack || a.w.clean ==> !Lost(b.w)
    {
      LeadsSameStop(a, b, address);
      LeadsHolds(a, b, true, address);
      InvIsNothingLost(b.w, address);
    }
  }

  // --- From the restore to `open` ----------------------------------------------------

  /** What is staged is what the new server serves in the end. */
  lemma ServesStaged(a: State, address: string) returns (b: State)
    requires Holds(a, address) && a.at.Idle? && UpTo(a.w.saved, Restore)
    requires a.w.source.k3sActive && a.w.source.pods == [] && a.w.saved.bundle in a.w.target.staged
    ensures Leads(a, b, false, address) && Open in b.w.saved.done
    ensures b.w.target.restored == Some(a.w.target.staged[a.w.saved.bundle])
    ensures b.w.source.log == a.w.source.log && b.w.steppedBack == a.w.steppedBack && b.w.halted == a.w.halted
  {
    UpToIsTurn(a.w.saved, Restore);
    StillMuted(a, address);
    var r := FinishRestore(a, address);
    UpToNext(a, r, Restore, Fence);
    var f := FinishFence(r, address);
    UpToNext(r, f, Fence, Open);
    LeadsOn(a, r, f, false, address);
    b := FinishOpen(f, address);
    LeadsOn(a, f, b, false, address);
  }

  // --- A workload the stop left running -------------------------------------------------

  /** The pod that a workload left above zero starts by itself. */
  function PodOf(wl: Workload): Pod {
    Pod(wl.ns, wl.name, false, [if wl.kind.IsDeployment? then ReplicaSet(wl.name) else StatefulSet(wl.name)])
  }

  predicate Unscaled(o: Old, wl: Workload) {
    wl in o.replicas && wl.ns in NAMESPACES && o.replicas[wl] > 0 && wl.name !in STORES
  }

  lemma PodWrites(o: Old, wl: Workload)
    requires Unscaled(o, wl) && o.k3sActive
    ensures Writes(PodOf(wl), STORES) && Startable(o, PodOf(wl))
  {
    assert Controls(wl, PodOf(wl));
  }

  /** It starts, writes, and is gone. */
  lemma WritesOnce(a: State, wl: Workload, x: Write, address: string) returns (b: State)
    requires Unscaled(a.w.source, wl) && a.w.source.k3sActive
    ensures Leads(a, b, false, address)
    ensures b == a.(w := a.w.(source := a.w.source.(pods := [], log := a.w.source.log + [x])))
  {
    PodWrites(a.w.source, wl);
    Stays(a, false, address);
    b := Meanwhile(a, a, OldPods([PodOf(wl)]), false, address);
    b := Meanwhile(a, b, Writing(x), false, address);
    b := Meanwhile(a, b, OldPods([]), false, address);
  }

  /** The stop left a workload running: its pod can write once the bundle's data is read. */
  lemma UnscaledLoses(a: State, wl: Workload, aided: bool, address: string) returns (b: State)
    requires Holds(a, address) && a.at.Idle? && UpTo(a.w.saved, Bundle) && Unscaled(a.w.source, wl)
    requires aided || a.w.source.k3sActive
    ensures Leads(a, b, aided, address) && Open in b.w.saved.done
    ensures b.w.steppedBack == a.w.steppedBack && b.w.halted == a.w.halted && Lost(b.w)
  {
    UpToIsTurn(a.w.saved, Bundle);
    var up := K3sUp(a, aided, address);
    var m := Cleared(up, aided, address);
    LeadsOn(a, up, m, aided, address);
    var c := FinishBundle(m, m.w.source.clock, address);
    UpToNext(m, c, Bundle, Restore);
    var d := WritesOnce(c, wl, 0, address);
    LeadsOn(m, c, d, false, address);
    LeadsAided(m, d, aided, address);
    LeadsOn(a, m, d, aided, address);
    LeadsHolds(a, d, aided, address);
    b := ServesStaged(d, address);
    LeadsAided(d, b, aided, address);
    LeadsOn(a, d, b, aided, address);
    assert |b.w.source.log| == |m.w.source.log| + 1;
  }

  // --- A bundle of the stop's very second --------------------------------------------------

  lemma GivenUp(a: State, aided: bool, address: string) returns (b: State)
    ensures Leads(a, b, aided, address) && b == a.(w := a.w.(source := a.w.source.(making := NotMaking)))
  {
    Stays(a, aided, address);
    b := Meanwhile(a, a, AbortBundle, aided, address);
  }

  lemma Published(a: State, aided: bool, address: string) returns (b: State)
    requires a.w.source.making.HasRead?
    ensures Leads(a, b, aided, address)
    ensures b == a.(w := a.w.(source := a.w.source.(making := NotMaking,
      bundles := a.w.source.bundles[a.w.source.making.at := a.w.source.making.snapshot])))
  {
    Stays(a, aided, address);
    b := Meanwhile(a, a, PublishBundle, aided, address);
  }

  predicate BadOneNewest(bundles: map<int, seq<Write>>, o: Old, at: int) {
    at in bundles && bundles[at] != o.log && forall c :: c in bundles ==> c <= at
  }

  /** The bad bundle of the stop's second in the directory, the newest there. */
  lemma BadOneThere(a: State, at: int, aided: bool, address: string) returns (b: State, bundles: map<int, seq<Write>>)
    requires !SecondIsWhole(a.w.source, at) && forall c :: c in a.w.source.bundles ==> c <= at
    ensures Leads(a, b, aided, address) && BadOneNewest(bundles, a.w.source, at)
    ensures b == a.(w := a.w.(source := a.w.source.(making := NotMaking, bundles := bundles)))
  {
    bundles := a.w.source.bundles;
    if at in bundles && bundles[at] != a.w.source.log {
      b := GivenUp(a, aided, address);
    } else {
      bundles := bundles[at := a.w.source.making.snapshot];
      b := Published(a, aided, address);
    }
  }

  /** And the clock set back before it. */
  lemma SetBack(a: State, aided: bool, address: string) returns (b: State, bundles: map<int, seq<Write>>)
    requires Stop in a.w.saved.done && !SecondIsWhole(a.w.source, a.w.saved.stopAt)
    requires forall c :: c in a.w.source.bundles ==> c <= a.w.saved.stopAt
    ensures Leads(a, b, aided, address) && BadOneNewest(bundles, a.w.source, a.w.saved.stopAt)
    ensures b == a.(w := a.w.(steppedBack := b.w.steppedBack, source := a.w.source.(
      making := NotMaking, bundles := bundles, clock := a.w.saved.stopAt - 1)))
  {
    b, bundles := BadOneThere(a, a.w.saved.stopAt, aided, address);
    b := Meanwhile(a, b, Clock(a.w.saved.stopAt - 1), aided, address);
  }

  lemma UncleanLoses(a: State, aided: bool, address: string) returns (b: State)
    requires Holds(a, address) && a.at.Idle? && UpTo(a.w.saved, Bundle)
    requires !SecondIsWhole(a.w.source, a.w.saved.stopAt)
    requires forall c :: c in a.w.source.bundles ==> c <= a.w.saved.stopAt
    requires aided || a.w.source.k3sActive
    ensures Leads(a, b, aided, address) && Open in b.w.saved.done
    ensures b.w.halted == a.w.halted && Lost(b.w)
  {
    UpToIsTurn(a.w.saved, Bundle);
    var up := K3sUp(a, aided, address);
    var m, bundles := SetBack(up, aided, address);
    LeadsOn(a, up, m, aided, address);
    var c := FinishBundle(m, a.w.saved.stopAt, address);
    UpToNext(m, c, Bundle, Restore);
    LeadsAided(m, c, aided, address);
    LeadsOn(a, m, c, aided, address);
    LeadsHolds(a, c, aided, address);
    b := ServesStaged(c, address);
    LeadsAided(c, b, aided, address);
    LeadsOn(a, c, b, aided, address);
  }

  // --- Exactly when -----------------------------------------------------------------------

  /** What is known the moment `stop` is saved. */
  predicate AtStop(a: State, at: int) {
    && a.at.Idle? && UpTo(a.w.saved, Bundle) && !a.w.steppedBack && a.w.saved.stopAt == at
    && a.w.halted == Scaled(a.w.source.replicas, STORES) && a.w.clean == SecondIsWhole(a.w.source, at)
    && (forall c :: c in a.w.source.bundles ==> c <= at)
  }

  lemma JustStopped(before: State, at: int, address: string)
    requires Holds(before, address) && before.at.Busy? && CanHappen(before, Sends(Save(Stop, at)), address)
    ensures AtStop(Next(before, Sends(Save(Stop, at)), address), at)
  {
    StopIsTheTurn(before.w, before.at, at, address);
    StopIsSaved(before.w, at, address);
  }

  lemma StopIsTheTurn(w: World, attempt: Attempt, at: int, address: string)
    requires Inv(w, address) && InTurn(w.saved, attempt) && attempt.Busy?
    requires Sendable(w, attempt, Save(Stop, at), address)
    ensures at == w.source.clock && w.saved.mode.Move? && forall x :: x in w.saved.done <==> Rank(x) < Rank(Stop)
  {
    assert attempt.step == Stop;
    EarlierAreDone(w.saved, Stop);
  }

  lemma StopIsSaved(w: World, at: int, address: string)
    requires Inv(w, address) && at == w.source.clock
    requires w.saved.mode.Move? && forall x :: x in w.saved.done <==> Rank(x) < Rank(Stop)
    ensures AtStop(State(SavedAs(w, Stop, at), Idle), at)
  {
    assert forall x :: Rank(x) == Rank(Stop) ==> x == Stop;
  }

  lemma UnscaledIsThere(o: Old) returns (wl: Workload)
    requires !Scaled(o.replicas, STORES)
    ensures Unscaled(o, wl)
  {
    wl :| wl in o.replicas && wl.ns in NAMESPACES && o.replicas[wl] > 0 && wl.name !in STORES;
  }

  /** The moment `stop` is saved decides it. As long as the old clock does not step back, the rest
      of the move loses nothing, whatever happens, exactly when every workload but the stores
      really is at zero; and however the clock goes, exactly when besides no bundle of this very
      second, made or being made, misses a write. */
  lemma StopIsSafeIff(before: State, at: int, address: string)
    requires Holds(before, address) && before.at.Busy? && CanHappen(before, Sends(Save(Stop, at)), address)
    ensures
      var a := Next(before, Sends(Save(Stop, at)), address);
      SafeOnTime(a, address) <==> Scaled(a.w.source.replicas, STORES)
    ensures
      var a := Next(before, Sends(Save(Stop, at)), address);
      Safe(a, address) <==> Scaled(a.w.source.replicas, STORES) && SecondIsWhole(a.w.source, at)
  {
    JustStopped(before, at, address);
    NextHolds(before, Sends(Save(Stop, at)), address);
    var a := Next(before, Sends(Save(Stop, at)), address);
    if a.w.halted {
      HaltedIsSafe(a, address);
      if !a.w.clean { var b := UncleanLoses(a, true, address); }
    } else {
      var wl := UnscaledIsThere(a.w.source);
      var b := UnscaledLoses(a, wl, true, address);
    }
  }

  // --- Such runs there are ------------------------------------------------------------------

  /** From any start with a k3s that answers and a workload that is no store: no hand on the old
      server, its clock never set back, and a write is lost. */
  lemma StopMayLoseAWrite(a: State, wl: Workload, address: string) returns (b: State)
    requires a.at.Idle? && Start(a.w) && a.w.saved.mode.Move? && a.w.source.k3sActive
    requires Unscaled(a.w.source, wl)
    ensures Leads(a, b, false, address)
    ensures Open in b.w.saved.done && !b.w.steppedBack && Lost(b.w)
  {
    var r := ReachesStop(a, address);
    var q := K3sUp(r, false, address);
    LeadsOn(a, r, q, false, address);
    var s := FinishStop(q, address);
    UpToNext(q, s, Stop, Bundle);
    LeadsOn(a, q, s, false, address);
    LeadsHolds(a, s, false, address);
    b := UnscaledLoses(s, wl, false, address);
    LeadsOn(a, s, b, false, address);
  }

  lemma ScaleOthers(a: State, m: State, address: string) returns (b: State)
    requires Leads(a, m, false, address) && m.at == Busy(Stop, None) && m.w.source.k3sActive
    ensures Leads(a, b, false, address)
    ensures b.at.Busy? && b.at.step.Stop? && Scaling(b.at.last)
    ensures b.w == m.w.(source := m.w.source.(replicas := b.w.source.replicas))
    ensures Scaled(b.w.source.replicas, STORES)
  {
    b := ScaleEach(a, m, (set wl | wl in m.w.source.replicas && wl.ns in NAMESPACES && wl.name !in STORES), address);
  }

  /** The stop with every workload scaled. */
  lemma FinishWholeStop(a: State, address: string) returns (b: State)
    requires a.at.Idle? && Turn(a.w.saved, Stop) && a.w.source.k3sActive && a.w.source.pods == []
    ensures Leads(a, b, false, address) && DoneWith(a, b, Stop)
    ensures b.w.source == a.w.source.(
      timersActive := false, timersEnabled := false, replicas := b.w.source.replicas)
    ensures b.w.saved.stopAt == a.w.source.clock && b.w.halted
  {
    Stays(a, false, address);
    b := Beginning(a, a, Stop, false, address);
    b := ScaleOthers(a, b, address);
    b := StopTimersAndPoll(a, b, address);
    b := Saving(a, b, Stop, b.w.source.clock, address);
  }

  /** In one second: a bundle's data read and its name there, then a write. */
  lemma BundleThenWrite(a: State, wl: Workload, address: string) returns (b: State)
    requires Unscaled(a.w.source, wl) && a.w.source.k3sActive
    ensures Leads(a, b, false, address)
    ensures b == a.(w := a.w.(source := a.w.source.(
      pods := [], log := a.w.source.log + [0], making := NotMaking,
      bundles := a.w.source.bundles[a.w.source.clock := a.w.source.log])))
  {
    Stays(a, false, address);
    var m := Meanwhile(a, a, AbortBundle, false, address);
    m := Meanwhile(a, m, BeginBundle, false, address);
    m := Meanwhile(a, m, ReadBundle, false, address);
    m := Meanwhile(a, m, PublishBundle, false, address);
    b := WritesOnce(m, wl, 0, address);
    LeadsOn(a, m, b, false, address);
  }

  /** From any such start, every workload but the stores really scaled: a bundle read in the stop's second before
      its last write, and the clock set back after it, lose that write. */
  lemma ClockMayLoseAWrite(a: State, wl: Workload, address: string) returns (b: State)
    requires a.at.Idle? && Start(a.w) && a.w.saved.mode.Move? && a.w.source.k3sActive
    requires Unscaled(a.w.source, wl)
    ensures Leads(a, b, false, address)
    ensures Open in b.w.saved.done && b.w.halted && Lost(b.w)
  {
    var r := ReachesStop(a, address);
    var q := BundleThenWrite(r, wl, address);
    LeadsOn(a, r, q, false, address);
    UpToIsTurn(q.w.saved, Stop);
    var s := FinishWholeStop(q, address);
    UpToNext(q, s, Stop, Bundle);
    LeadsOn(a, q, s, false, address);
    LeadsHolds(a, s, false, address);
    var at := a.w.source.clock;
    assert |s.w.source.bundles[at]| + 1 == |s.w.source.log|;
    b := UncleanLoses(s, false, address);
    LeadsOn(a, s, b, false, address);
  }
}

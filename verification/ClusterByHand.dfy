/** A step of the move run again by hand: `run_step` refuses one that comes too early, not one that
    is done (scripts/move/cluster_fence.py, cluster_move.py). What that can do once the new server
    is open. */
module ClusterByHand {
  import opened ClusterWorld
  import opened ClusterProtocol
  import opened ClusterRuns
  import opened ClusterRerun
  import opened Wrappers

  // --- Runs by hand ---------------------------------------------------------------

  /** As in a run, but that an attempt is begun at one of these steps, done before. */
  predicate CanByHand(s: State, h: Happening, steps: set<Step>, address: string) {
    if h.Begins? then s.at.Idle? && h.step in steps && h.step in s.w.saved.done && !OutOfOrder(s.w.saved, h.step)
    else CanHappen(s, h, address)
  }

  function NextByHand(s: State, h: Happening, steps: set<Step>, address: string): State
    requires CanByHand(s, h, steps, address)
  {
    if h.Begins? then s.(at := Busy(h.step, None)) else Next(s, h, address)
  }

  predicate FollowsByHand(a: State, m: Moment, steps: set<Step>, address: string) {
    CanByHand(a, m.how, steps, address) && m.s == NextByHand(a, m.how, steps, address)
  }

  predicate ByHand(seen: seq<Moment>, steps: set<Step>, address: string)
    decreases |seen|
  {
    && seen != []
    && (|seen| > 1 ==>
      ByHand(seen[..|seen| - 1], steps, address) && FollowsByHand(seen[|seen| - 2].s, seen[|seen| - 1], steps, address))
  }

  ghost predicate LeadsByHand(a: State, b: State, steps: set<Step>, address: string) {
    exists seen: seq<Moment> :: ByHand(seen, steps, address) && seen[0].s == a && Last(seen) == b
  }

  lemma StaysByHand(a: State, steps: set<Step>, address: string)
    ensures LeadsByHand(a, a, steps, address)
  {
    assert ByHand([Moment(Ends, a)], steps, address);
  }

  lemma ThenByHand(a: State, b: State, h: Happening, steps: set<Step>, address: string) returns (c: State)
    requires LeadsByHand(a, b, steps, address) && CanByHand(b, h, steps, address)
    ensures c == NextByHand(b, h, steps, address) && LeadsByHand(a, c, steps, address)
  {
    c := NextByHand(b, h, steps, address);
    var seen: seq<Moment> :| ByHand(seen, steps, address) && seen[0].s == a && Last(seen) == b;
    var more := seen + [Moment(h, c)];
    assert more[..|seen|] == seen && ByHand(more, steps, address);
  }

  // --- The old server stays closed --------------------------------------------------

  ghost predicate Shut(w: World, address: string) {
    Closed(w, address) && StoresAreStateful(w.source.replicas) && w.saved.mode.Move?
  }

  lemma OpenIsShut(a: State, address: string)
    requires Holds(a, address) && Open in a.w.saved.done
    ensures Shut(a.w, address) && a.w.target.restored.Some?
  {
    assert Rank(Restore) < Rank(Open);
  }

  lemma EventKeepsShut(w: World, e: Event, address: string)
    requires Shut(w, address) && Possible(w, e)
    ensures Shut(Happens(w, e), address)
  {
    if e.OldPods? { QuietStays(w.source, {}, e.pods); }
  }

  lemma CommandKeepsShut(w: World, c: Command, address: string)
    requires Shut(w, address) && Answers(w, c, address)
    ensures Shut(Sent(w, c, address), address)
  {
    if !OnSource(c) && !c.Save? { return; }
  }

  // --- What was carried, and what is served -----------------------------------------

  // The bundle carried is the same, nothing more is staged, and no bundle comes any further.
  predicate NoMoreCarried(a: World, s: State) {
    && s.w.saved.bundle == a.saved.bundle
    && (forall c :: c in s.w.target.staged ==> c in a.target.staged)
    && (s.at.Busy? && s.at.step.Bundle? ==> s.at.last.None?)
  }

  lemma BundleGoesNoFurther(w: World, c: Command, address: string)
    requires Shut(w, address) && BundleOrder(w.saved.mode, None, c)
    ensures !Answers(w, c, address)
  {
  }

  lemma OnlyBundleCarries(mode: Mode, step: Step, last: Option<Command>, c: Command)
    requires Comes(mode, step, last, c) && !step.Bundle?
    ensures !c.Push? && (c.Save? ==> !c.step.Bundle?)
  {
  }

  lemma OthersStageNothing(w: World, c: Command, address: string)
    requires !c.Push?
    ensures Sent(w, c, address).target.staged in {w.target.staged, map[]}
  {
    if OnSource(c) || c.Save? { return; }
  }

  lemma OthersCarryNothing(w: World, c: Command, address: string)
    requires !c.Push? && (c.Save? ==> !c.step.Bundle?)
    ensures Sent(w, c, address).saved.bundle == w.saved.bundle
    ensures forall name :: name in Sent(w, c, address).target.staged ==> name in w.target.staged
  {
    OthersStageNothing(w, c, address);
    if !c.Save? { OnlySaveSaves(w, c, address); }
  }

  lemma EventCarriesNothing(w: World, e: Event)
    ensures Happens(w, e).saved == w.saved && DataStays(w.target, Happens(w, e).target)
    ensures forall c :: c in Happens(w, e).target.staged ==> c in w.target.staged
  {
  }

  ghost predicate HoldsByHand(a: World, s: State, steps: set<Step>, address: string) {
    Shut(s.w, address) && NoMoreCarried(a, s) && (s.at.Busy? ==> s.at.step in steps)
  }

  lemma CommandByHand(a: World, s: State, c: Command, steps: set<Step>, address: string)
    requires HoldsByHand(a, s, steps, address) && Sendable(s.w, s.at, c, address)
    ensures HoldsByHand(a, State(Sent(s.w, c, address), Going(s.at, c)), steps, address)
  {
    if s.at.step.Bundle? {
      BundleGoesNoFurther(s.w, c, address);
    } else {
      CommandKeepsShut(s.w, c, address);
      OnlyBundleCarries(s.w.saved.mode, s.at.step, s.at.last, c);
      OthersCarryNothing(s.w, c, address);
    }
  }

  lemma NextHoldsByHand(a: World, s: State, h: Happening, steps: set<Step>, address: string)
    requires HoldsByHand(a, s, steps, address) && CanByHand(s, h, steps, address)
    ensures HoldsByHand(a, NextByHand(s, h, steps, address), steps, address)
  {
    match h
    case Outside(e) =>
      EventKeepsShut(s.w, e, address);
      EventCarriesNothing(s.w, e);
    case Sends(c) => CommandByHand(a, s, c, steps, address);
    case _ =>
  }

  lemma {:induction false} ChainByHand(seen: seq<Moment>, steps: set<Step>, address: string)
    requires ByHand(seen, steps, address) && HoldsByHand(seen[0].s.w, seen[0].s, steps, address)
    ensures HoldsByHand(seen[0].s.w, Last(seen), steps, address)
    decreases |seen|
  {
    if |seen| > 1 {
      ChainByHand(seen[..|seen| - 1], steps, address);
      NextHoldsByHand(seen[0].s.w, seen[|seen| - 2].s, seen[|seen| - 1].how, steps, address);
    }
  }

  /** The new server open: whatever steps are run again by hand, and wherever they are cut off, the old
      one stays closed, and there is one writer. */
  lemma ByHandKeepsOneWriter(a: State, b: State, steps: set<Step>, address: string)
    requires Holds(a, address) && a.at.Idle? && Open in a.w.saved.done && LeadsByHand(a, b, steps, address)
    ensures Closed(b.w, address) && OneWriter(b.w)
  {
    OpenIsShut(a, address);
    var seen: seq<Moment> :| ByHand(seen, steps, address) && seen[0].s == a && Last(seen) == b;
    ChainByHand(seen, steps, address);
  }

  // --- What the new server wrote ------------------------------------------------------

  // The restore is not among the steps, or what it restores is no longer there.
  predicate NothingToRestore(a: World, steps: set<Step>) {
    Restore !in steps || a.saved.bundle !in a.target.staged
  }

  lemma NextKeepsData(a: World, s: State, h: Happening, steps: set<Step>, address: string)
    requires HoldsByHand(a, s, steps, address) && CanByHand(s, h, steps, address) && NothingToRestore(a, steps)
    ensures DataStays(s.w.target, NextByHand(s, h, steps, address).w.target)
  {
    match h
    case Outside(e) => EventCarriesNothing(s.w, e);
    case Sends(c) =>
      if c.RestoreBegins? || c.RestoreEnds? { RestoringIsOfRestore(s.w.saved.mode, s.at.step, s.at.last, c); }
      OnlyRestoringOverwrites(s.w, c, address);
    case _ =>
  }

  lemma {:induction false} ChainKeepsData(seen: seq<Moment>, steps: set<Step>, address: string)
    requires ByHand(seen, steps, address) && HoldsByHand(seen[0].s.w, seen[0].s, steps, address)
    requires NothingToRestore(seen[0].s.w, steps)
    ensures DataStays(seen[0].s.w.target, Last(seen).w.target)
    decreases |seen|
  {
    if |seen| > 1 {
      var front := seen[..|seen| - 1];
      ChainKeepsData(front, steps, address);
      ChainByHand(front, steps, address);
      NextKeepsData(seen[0].s.w, Last(front), seen[|seen| - 1].how, steps, address);
      StaysOn(seen[0].s.w.target, Last(front).w.target, Last(seen).w.target);
    }
  }

  // An attempt at it goes as far as this.
  lemma RestoreBegun(a: State, steps: set<Step>, address: string) returns (m: State)
    requires Holds(a, address) && a.at.Idle? && Open in a.w.saved.done && !NothingToRestore(a.w, steps)
    ensures LeadsByHand(a, m, steps, address)
    ensures m == State(Sent(a.w, RestoreBegins, address), Busy(Restore, Some(RestoreBegins)))
  {
    RestoreIsDone(a, address);
    StaysByHand(a, steps, address);
    m := ThenByHand(a, a, Begins(Restore), steps, address);
    m := ThenByHand(a, m, Sends(RestoreBegins), steps, address);
  }

  lemma RestoreEnded(a: State, m: State, written: seq<Write>, steps: set<Step>, address: string) returns (b: State)
    requires LeadsByHand(a, m, steps, address) && m.at == Busy(Restore, Some(RestoreBegins))
    requires m.w.saved.bundle in m.w.target.staged && written == m.w.target.staged[m.w.saved.bundle]
    ensures LeadsByHand(a, b, steps, address) && b.at == Busy(Restore, Some(RestoreEnds(written)))
    ensures b.w.target.restored == Some(written) && b.w.target.since == []
  {
    b := ThenByHand(a, m, Sends(RestoreEnds(written)), steps, address);
  }

  lemma RestoreSaved(a: State, m: State, steps: set<Step>, address: string) returns (b: State)
    requires LeadsByHand(a, m, steps, address)
    requires m.at.Busy? && m.at.step.Restore? && m.at.last.Some? && m.at.last.value.RestoreEnds?
    ensures LeadsByHand(a, b, steps, address) && b.at.Idle? && b.w.target == m.w.target
  {
    b := ThenByHand(a, m, Sends(Save(Restore, 0)), steps, address);
  }

  lemma RestoreIsDone(a: State, address: string)
    requires Holds(a, address) && Open in a.w.saved.done
    ensures Restore in a.w.saved.done && !OutOfOrder(a.w.saved, Restore)
  {
    assert a.w.saved.mode.Move?;
    assert forall x :: Rank(x) < Rank(Open) ==> x in a.w.saved.done;
  }

  /** Once the new server is open, no step run again by hand, however often, mixed with whatever and
      cut off anywhere, takes away what was restored or anything the new server has written since,
      exactly if `restore` is not among them, or the bundle that was carried is no longer staged. */
  lemma ByHandKeepsDataIff(a: State, steps: set<Step>, address: string)
    requires Holds(a, address) && a.at.Idle? && Open in a.w.saved.done
    ensures (forall b :: LeadsByHand(a, b, steps, address) ==> DataStays(a.w.target, b.w.target))
      <==> NothingToRestore(a.w, steps)
  {
    OpenIsShut(a, address);
    if NothingToRestore(a.w, steps) {
      forall b | LeadsByHand(a, b, steps, address) ensures DataStays(a.w.target, b.w.target) {
        var seen: seq<Moment> :| ByHand(seen, steps, address) && seen[0].s == a && Last(seen) == b;
        ChainKeepsData(seen, steps, address);
      }
    } else {
      var m := RestoreBegun(a, steps, address);
      assert m.w.target.restored.None?;
    }
  }

  /** Else a `restore` that ends well leaves the bundle's data and nothing of what was written since. */
  lemma RestoreAgainForgets(a: State, address: string) returns (b: State)
    requires Holds(a, address) && a.at.Idle? && Open in a.w.saved.done && a.w.saved.bundle in a.w.target.staged
    ensures LeadsByHand(a, b, {Restore}, address) && b.at.Idle?
    ensures b.w.target.restored == Some(a.w.target.staged[a.w.saved.bundle]) && b.w.target.since == []
  {
    b := RestoreBegun(a, {Restore}, address);
    b := RestoreEnded(a, b, a.w.target.staged[a.w.saved.bundle], {Restore}, address);
    b := RestoreSaved(a, b, {Restore}, address);
  }

  // --- Such runs there are ------------------------------------------------------------

  /** A restore whose clearing failed, which it does not look at. */
  lemma FinishUncleared(a: State, address: string) returns (b: State)
    requires a.at.Idle? && Turn(a.w.saved, Restore) && a.w.saved.bundle in a.w.target.staged
    ensures Leads(a, b, false, address) && DoneWith(a, b, Restore) && b.w.source == a.w.source
    ensures b.w.target.staged == a.w.target.staged && b.w.target.muteUnit == a.w.target.muteUnit
  {
    Stays(a, false, address);
    b := Beginning(a, a, Restore, false, address);
    b := RestoreFrom(a, b, address);
    b := Saving(a, b, Restore, 0, address);
  }

  /** From any start of a move with a k3s that answers, a run opens the new server with the bundle it
      carried still staged. */
  lemma RunMayLeaveItStaged(a: State, address: string) returns (b: State)
    requires a.at.Idle? && Start(a.w) && a.w.saved.mode.Move? && a.w.source.k3sActive
    ensures Leads(a, b, false, address) && Holds(b, address) && b.at.Idle?
    ensures Open in b.w.saved.done && !NothingToRestore(b.w, {Restore})
  {
    var r := ReachesRestore(a, address);
    UpToIsTurn(r.w.saved, Restore);
    StillMuted(r, address);
    var u := FinishUncleared(r, address);
    UpToNext(r, u, Restore, Fence);
    LeadsOn(a, r, u, false, address);
    var f := FinishFence(u, address);
    UpToNext(u, f, Fence, Open);
    LeadsOn(a, u, f, false, address);
    b := FinishOpen(f, address);
    LeadsOn(a, f, b, false, address);
    StartHolds(a, address);
    LeadsHolds(a, b, false, address);
  }
}

/** When a step of the move, begun again after a cut-off, can still come to its end
    (scripts/move/cluster_move.py, cluster_open.py, scripts/edge/edge_zone.py). */
module ClusterRerun {
  import opened ClusterWorld
  import opened ClusterProtocol
  import opened ClusterRuns
  import Sets
  import opened Wrappers

  // --- From one state to another -----------------------------------------------

  ghost predicate Leads(a: State, b: State, aided: bool, address: string) {
    exists seen: seq<Moment> :: Chain(seen, aided, address) && seen[0].s == a && Last(seen) == b
  }

  lemma Stays(a: State, aided: bool, address: string)
    ensures Leads(a, a, aided, address)
  {
    var seen := [Moment(Ends, a)];
    assert Chain(seen, aided, address);
  }

  lemma Then(a: State, b: State, h: Happening, aided: bool, address: string) returns (c: State)
    requires Leads(a, b, aided, address) && CanHappen(b, h, address) && (aided || !IsHands(h))
    ensures c == Next(b, h, address) && Leads(a, c, aided, address)
  {
    c := Next(b, h, address);
    var seen: seq<Moment> :| Chain(seen, aided, address) && seen[0].s == a && Last(seen) == b;
    Extended(seen, Moment(h, c), aided, address);
  }

  lemma Meanwhile(a: State, b: State, e: Event, aided: bool, address: string) returns (c: State)
    requires Leads(a, b, aided, address) && Possible(b.w, e) && (aided || !e.Hands?)
    ensures c == b.(w := Happens(b.w, e)) && Leads(a, c, aided, address)
  {
    c := Then(a, b, Outside(e), aided, address);
  }

  lemma Sending(a: State, b: State, c: Command, aided: bool, address: string) returns (d: State)
    requires Leads(a, b, aided, address) && Sendable(b.w, b.at, c, address)
    ensures d == State(Sent(b.w, c, address), Going(b.at, c)) && Leads(a, d, aided, address)
  {
    d := Then(a, b, Sends(c), aided, address);
  }

  lemma Beginning(a: State, b: State, step: Step, aided: bool, address: string) returns (c: State)
    requires Leads(a, b, aided, address) && b.at.Idle? && Turn(b.w.saved, step)
    ensures c == b.(at := Busy(step, None)) && Leads(a, c, aided, address)
  {
    c := Then(a, b, Begins(step), aided, address);
  }

  lemma {:induction false} LeadsOn(a: State, b: State, c: State, aided: bool, address: string)
    requires Leads(a, b, aided, address) && Leads(b, c, aided, address)
    ensures Leads(a, c, aided, address)
  {
    var seen: seq<Moment> :| Chain(seen, aided, address) && seen[0].s == b && Last(seen) == c;
    LeadsAlong(a, seen, aided, address);
  }

  lemma {:induction false} LeadsAlong(a: State, seen: seq<Moment>, aided: bool, address: string)
    requires Chain(seen, aided, address) && Leads(a, seen[0].s, aided, address)
    ensures Leads(a, Last(seen), aided, address)
    decreases |seen|
  {
    if |seen| > 1 {
      LeadsAlong(a, seen[..|seen| - 1], aided, address);
      var c := Then(a, seen[|seen| - 2].s, seen[|seen| - 1].how, aided, address);
    }
  }

  lemma LeadsHolds(a: State, b: State, aided: bool, address: string)
    requires Leads(a, b, aided, address) && Holds(a, address)
    ensures Holds(b, address)
  {
    var seen: seq<Moment> :| Chain(seen, aided, address) && seen[0].s == a && Last(seen) == b;
    ChainHolds(seen, aided, address, |seen| - 1);
  }

  lemma {:induction false} ChainAided(seen: seq<Moment>, address: string)
    requires Chain(seen, false, address)
    ensures Chain(seen, true, address)
    decreases |seen|
  {
    if |seen| > 1 { ChainAided(seen[..|seen| - 1], address); }
  }

  lemma LeadsAided(a: State, b: State, aided: bool, address: string)
    requires Leads(a, b, false, address)
    ensures Leads(a, b, aided, address)
  {
    var seen: seq<Moment> :| Chain(seen, false, address) && seen[0].s == a && Last(seen) == b;
    ChainAided(seen, address);
  }

  // --- What a step needs --------------------------------------------------------

  /** The step's turn: pending, and all before it done. */
  predicate Turn(s: Saved, step: Step) { step !in s.done && !OutOfOrder(s, step) }

  predicate HasBundle(o: Old) { o.bundles.Keys != {} || o.making.HasRead? }

  /** What a step cannot do without and does not bring about itself. `aided`: someone may start
      or stop k3s on the old server by hand, and edit its marker. */
  predicate Needs(w: World, step: Step, aided: bool, address: string) {
    match step
    case Mute => aided || w.source.k3sActive
    case Stop => aided || w.source.k3sActive
    case Bundle => aided || w.source.k3sActive || (w.saved.mode.Rehearse? && HasBundle(w.source))
    case Restore => w.saved.bundle in w.target.staged
    case Fence => aided || w.source.k3sActive
    case Open => w.target.muteUnit && (aided || !NotFenced(w.source, address))
    case Repoint => !w.edgeAtNew
    case _ => true
  }

  ghost predicate CanFinish(a: State, step: Step, aided: bool, address: string) {
    exists b :: Leads(a, b, aided, address) && step in b.w.saved.done
  }

  // --- Without it, no rerun finishes ----------------------------------------------

  /** As far as an attempt comes without what its step needs. */
  predicate StuckAt(w: World, last: Option<Command>) {
    last.None? || Idles(w, last.value)
  }

  predicate Idles(w: World, c: Command) {
    c.StopTimers? || c.ScaledAll? || (c.ClearStaged? && !c.whole) || (c.ReadEvidence? && !w.target.muteUnit)
  }

  predicate Stuck(s: State, step: Step, aided: bool, address: string) {
    && Turn(s.w.saved, step) && !Needs(s.w, step, aided, address)
    && (s.at.Busy? ==> s.at.step == step && StuckAt(s.w, s.at.last))
  }

  lemma OneTurn(s: Saved, x: Step, y: Step)
    requires Turn(s, x) && Turn(s, y)
    ensures x == y
  {
    StepsByRank(s.mode, x);
    StepsByRank(s.mode, y);
    assert Rank(x) == Rank(y) ==> x == y;
  }

  lemma EventLeavesStuck(w: World, e: Event, step: Step, aided: bool, address: string)
    requires Inv(w, address) && Turn(w.saved, step) && Possible(w, e) && (aided || !e.Hands?)
    requires !Needs(w, step, aided, address)
    ensures !Needs(Happens(w, e), step, aided, address)
  {
    DoneInTurn(w.saved, step);
  }

  lemma CommandLeavesStuck(w: World, at: Attempt, c: Command, step: Step, aided: bool, address: string)
    requires Sendable(w, at, c, address) && Turn(w.saved, step) && !Needs(w, step, aided, address)
    requires at.step == step && StuckAt(w, at.last)
    ensures !c.Save? && !Needs(Sent(w, c, address), step, aided, address) && StuckAt(Sent(w, c, address), Some(c))
  {
    OnlyIdles(w, at, c, step, aided, address);
    IdlingChangesNoNeed(w, c, step, aided, address);
  }

  lemma WithoutK3s(w: World, last: Option<Command>, c: Command, address: string)
    requires MuteOrder(last, c) || StopOrder(last, c) || FenceOrder(last, c)
    requires Answers(w, c, address) && !w.source.k3sActive && StuckAt(w, last)
    ensures c.StopTimers? || c.ScaledAll?
  {
    if MuteOrder(last, c) { return; }
    if StopOrder(last, c) { return; }
  }

  lemma WithoutBundle(w: World, last: Option<Command>, c: Command, address: string)
    requires BundleOrder(w.saved.mode, last, c) && StuckAt(w, last) && Answers(w, c, address)
    ensures if w.saved.mode.Move? then w.source.k3sActive else HasBundle(w.source)
  {
  }

  lemma WithoutMuteUnit(w: World, last: Option<Command>, c: Command, address: string)
    requires OpenOrder(last, c) && StuckAt(w, last) && Answers(w, c, address)
    requires !w.target.muteUnit || NotFenced(w.source, address)
    ensures c.ReadEvidence? && !w.target.muteUnit
  {
  }

  lemma OnlyIdles(w: World, at: Attempt, c: Command, step: Step, aided: bool, address: string)
    requires Sendable(w, at, c, address) && !Needs(w, step, aided, address)
    requires at.step == step && StuckAt(w, at.last)
    ensures Idles(w, c) && (c.ClearStaged? ==> step.Restore?) && (c.ReadEvidence? ==> step.Open?)
  {
    if step.Mute? || step.Stop? || step.Fence? {
      WithoutK3s(w, at.last, c, address);
    } else if step.Open? {
      WithoutMuteUnit(w, at.last, c, address);
    } else if step.Bundle? {
      WithoutBundle(w, at.last, c, address);
    }
  }

  lemma IdlingChangesNoNeed(w: World, c: Command, step: Step, aided: bool, address: string)
    requires Idles(w, c) && (c.ClearStaged? ==> step.Restore?) && (c.ReadEvidence? ==> step.Open?)
    requires !Needs(w, step, aided, address)
    ensures !Needs(Sent(w, c, address), step, aided, address) && Idles(Sent(w, c, address), c)
  {
    if c.StopTimers? || c.ScaledAll? { return; }
  }

  lemma StuckStays(s: State, h: Happening, step: Step, aided: bool, address: string)
    requires Inv(s.w, address) && Stuck(s, step, aided, address)
    requires CanHappen(s, h, address) && (aided || !IsHands(h))
    ensures Stuck(Next(s, h, address), step, aided, address)
  {
    match h
    case Outside(e) =>
      EventSavesNothing(s.w, e);
      EventLeavesStuck(s.w, e, step, aided, address);
    case Begins(x) => OneTurn(s.w.saved, x, step);
    case Sends(c) =>
      CommandLeavesStuck(s.w, s.at, c, step, aided, address);
      OnlySaveSaves(s.w, c, address);
    case Ends =>
  }

  lemma StuckFollows(s: State, m: Moment, step: Step, aided: bool, address: string)
    requires Holds(s, address) && Stuck(s, step, aided, address) && Follows(s, m, aided, address)
    ensures Holds(m.s, address) && Stuck(m.s, step, aided, address)
  {
    NextHolds(s, m.how, address);
    StuckStays(s, m.how, step, aided, address);
  }

  lemma {:induction false} StuckForGood(seen: seq<Moment>, step: Step, aided: bool, address: string)
    requires Chain(seen, aided, address)
    requires Holds(seen[0].s, address) && Stuck(seen[0].s, step, aided, address)
    ensures Holds(Last(seen), address) && Stuck(Last(seen), step, aided, address)
    decreases |seen|
  {
    if |seen| > 1 {
      StuckForGood(seen[..|seen| - 1], step, aided, address);
      StuckFollows(seen[|seen| - 2].s, seen[|seen| - 1], step, aided, address);
    }
  }

  lemma StuckCannotFinish(a: State, step: Step, aided: bool, address: string)
    requires Holds(a, address) && Stuck(a, step, aided, address)
    ensures !CanFinish(a, step, aided, address)
  {
    forall b | Leads(a, b, aided, address) ensures step !in b.w.saved.done {
      var seen: seq<Moment> :| Chain(seen, aided, address) && seen[0].s == a && Last(seen) == b;
      StuckForGood(seen, step, aided, address);
    }
  }

  // --- With it, a rerun can finish --------------------------------------------------

  /** The step is saved and the driver idle; the old clock kept going. */
  predicate DoneWith(a: State, b: State, step: Step) {
    && b.at.Idle?
    && b.w.saved.mode == a.w.saved.mode && b.w.saved.done == a.w.saved.done + {step}
    && b.w.steppedBack == a.w.steppedBack
    && (!step.Stop? ==>
      b.w.saved.stopAt == a.w.saved.stopAt && b.w.halted == a.w.halted && b.w.clean == a.w.clean)
    && (!step.Bundle? ==> b.w.saved.bundle == a.w.saved.bundle)
  }

  /** The step's own end: what the attempt left alone stays as it was. */
  lemma Saving(a: State, m: State, step: Step, noted: int, address: string) returns (b: State)
    requires Leads(a, m, false, address) && m.at.Busy? && m.at.step == step
    requires Sendable(m.w, m.at, Save(step, noted), address)
    requires m.w.saved == a.w.saved && m.w.steppedBack == a.w.steppedBack
    requires m.w.halted == a.w.halted && m.w.clean == a.w.clean
    ensures Leads(a, b, false, address) && DoneWith(a, b, step) && b.w == SavedAs(m.w, step, noted)
  {
    b := Sending(a, m, Save(step, noted), false, address);
  }

  lemma FinishAtOnce(a: State, step: Step, address: string) returns (b: State)
    requires a.at.Idle? && Turn(a.w.saved, step) && (step.Check? || step.Deploy?)
    ensures Leads(a, b, false, address) && DoneWith(a, b, step)
    ensures b.w.source == a.w.source && b.w.target == a.w.target
  {
    Stays(a, false, address);
    b := Beginning(a, a, step, false, address);
    b := Saving(a, b, step, 0, address);
  }

  lemma WriteMute(a: State, m: State, address: string) returns (b: State)
    requires Leads(a, m, false, address) && m.at == Busy(Mute, None) && m.w.source.k3sActive
    ensures Leads(a, b, false, address) && b.at == Busy(Mute, Some(WriteMuteUnit))
    ensures b.w == m.w.(target := b.w.target)
  {
    b := Sending(a, m, ReadImages, false, address);
    b := Sending(a, b, WriteMuteFile, false, address);
    b := Sending(a, b, WriteMuteUnit, false, address);
  }

  lemma LoadMute(a: State, m: State, address: string) returns (b: State)
    requires Leads(a, m, false, address) && m.at == Busy(Mute, Some(WriteMuteUnit))
    ensures Leads(a, b, false, address) && b.at == Busy(Mute, Some(LoadTable))
    ensures b.w == m.w.(target := b.w.target)
  {
    b := Sending(a, m, DropTable, false, address);
    b := Sending(a, b, EnableMute, false, address);
    b := Sending(a, b, LoadTable, false, address);
  }

  lemma FinishMute(a: State, address: string) returns (b: State)
    requires a.at.Idle? && Turn(a.w.saved, Mute) && a.w.source.k3sActive
    ensures Leads(a, b, false, address) && DoneWith(a, b, Mute)
    ensures b.w.source == a.w.source
  {
    Stays(a, false, address);
    b := Beginning(a, a, Mute, false, address);
    b := WriteMute(a, b, address);
    b := LoadMute(a, b, address);
    b := Saving(a, b, Mute, 0, address);
  }

  lemma FinishInstall(a: State, address: string) returns (b: State)
    requires a.at.Idle? && Turn(a.w.saved, Install)
    ensures Leads(a, b, false, address) && DoneWith(a, b, Install)
    ensures b.w.source == a.w.source
  {
    Stays(a, false, address);
    b := Beginning(a, a, Install, false, address);
    b := Sending(a, b, StartK3s, false, address);
    b := Saving(a, b, Install, 0, address);
  }

  lemma RestoreFrom(a: State, m: State, address: string) returns (b: State)
    requires Leads(a, m, false, address) && m.at == Busy(Restore, None)
    requires m.w.saved.bundle in m.w.target.staged
    ensures
      var x := m.w.target.staged[m.w.saved.bundle];
      && Leads(a, b, false, address) && b.at == Busy(Restore, Some(RestoreEnds(x)))
      && b.w == m.w.(target := m.w.target.(restored := Some(x), since := []))
  {
    b := Sending(a, m, RestoreBegins, false, address);
    b := Sending(a, b, RestoreEnds(m.w.target.staged[m.w.saved.bundle]), false, address);
  }

  lemma RestoreWhole(a: State, m: State, address: string) returns (b: State)
    requires Leads(a, m, false, address) && m.at == Busy(Restore, None)
    requires m.w.saved.bundle in m.w.target.staged
    ensures Leads(a, b, false, address) && b.at == Busy(Restore, Some(ClearStaged(true)))
    ensures b.w == m.w.(target := m.w.target.(staged := map[], since := [],
      restored := Some(m.w.target.staged[m.w.saved.bundle])))
  {
    b := RestoreFrom(a, m, address);
    b := Sending(a, b, ClearStaged(true), false, address);
  }

  lemma FinishRestore(a: State, address: string) returns (b: State)
    requires a.at.Idle? && Turn(a.w.saved, Restore) && a.w.saved.bundle in a.w.target.staged
    ensures Leads(a, b, false, address) && DoneWith(a, b, Restore)
    ensures b.w.source == a.w.source && b.w.target.restored == Some(a.w.target.staged[a.w.saved.bundle])
    ensures b.w.target.muteUnit == a.w.target.muteUnit
  {
    Stays(a, false, address);
    b := Beginning(a, a, Restore, false, address);
    b := RestoreWhole(a, b, address);
    b := Saving(a, b, Restore, 0, address);
  }

  lemma FinishRepoint(a: State, address: string) returns (b: State)
    requires a.at.Idle? && Turn(a.w.saved, Repoint) && !a.w.edgeAtNew
    ensures Leads(a, b, false, address) && DoneWith(a, b, Repoint)
  {
    Stays(a, false, address);
    b := Beginning(a, a, Repoint, false, address);
    b := Sending(a, b, PointEdge, false, address);
    b := Sending(a, b, PointDomestic, false, address);
    b := Saving(a, b, Repoint, 0, address);
  }

  predicate SameData(m: New, n: New) { n.restored == m.restored && n.since == m.since && n.staged == m.staged }

  lemma StopMuting(a: State, m: State, address: string) returns (b: State)
    requires Leads(a, m, false, address) && m.at == Busy(Open, Some(ReadEvidence)) && m.w.target.muteUnit
    ensures Leads(a, b, false, address) && b.at == Busy(Open, Some(StopMute))
    ensures b.w == m.w.(target := m.w.target.(muteEnabled := false, muteLoaded := false))
  {
    b := Sending(a, m, DisableMute, false, address);
    b := Sending(a, b, StopMute, false, address);
  }

  lemma RemoveMute(a: State, m: State, address: string) returns (b: State)
    requires Leads(a, m, false, address) && m.at == Busy(Open, Some(ReadEvidence)) && m.w.target.muteUnit
    ensures Leads(a, b, false, address) && b.at == Busy(Open, Some(RemoveUnit))
    ensures b.w == m.w.(target := b.w.target) && !b.w.target.muteUnit && !b.w.target.muteLoaded
    ensures SameData(m.w.target, b.w.target)
  {
    b := StopMuting(a, m, address);
    b := Sending(a, b, RemoveUnit, false, address);
  }

  lemma StartServing(a: State, m: State, address: string) returns (b: State)
    requires Leads(a, m, false, address) && m.at == Busy(Open, Some(RemoveUnit)) && !m.w.target.muteLoaded
    ensures Leads(a, b, false, address) && b.at == Busy(Open, Some(StartTimers))
    ensures b.w == m.w.(target := b.w.target) && SameData(m.w.target, b.w.target)
  {
    b := Sending(a, m, RemoveFile, false, address);
    b := Sending(a, b, StartTimers, false, address);
  }

  lemma FinishOpen(a: State, address: string) returns (b: State)
    requires a.at.Idle? && Turn(a.w.saved, Open) && a.w.target.muteUnit && !NotFenced(a.w.source, address)
    ensures Leads(a, b, false, address) && DoneWith(a, b, Open)
    ensures b.w.source == a.w.source && SameData(a.w.target, b.w.target)
    ensures b.w.edgeAtNew == a.w.edgeAtNew
  {
    Stays(a, false, address);
    b := Beginning(a, a, Open, false, address);
    b := Sending(a, b, ReadEvidence, false, address);
    b := RemoveMute(a, b, address);
    b := StartServing(a, b, address);
    b := Saving(a, b, Open, 0, address);
  }

  // The old server with its pods ended, as they may at any time.

  lemma StopTimersAndPoll(a: State, m: State, address: string) returns (b: State)
    requires Leads(a, m, false, address) && m.at.Busy? && m.at.step.Stop? && Scaling(m.at.last)
    requires m.w.source.k3sActive && forall p :: p in m.w.source.pods ==> !Listed(p, STORES)
    ensures Leads(a, b, false, address) && b.at == Busy(Stop, Some(Poll(STORES)))
    ensures b.w == m.w.(source := m.w.source.(timersActive := false, timersEnabled := false))
  {
    b := Sending(a, m, StopTimers, false, address);
    b := Sending(a, b, Poll(STORES), false, address);
  }

  /** A stop whose remote loop got no listing, and so scaled nothing, comes back all the same. */
  lemma FinishStop(a: State, address: string) returns (b: State)
    requires a.at.Idle? && Turn(a.w.saved, Stop) && a.w.source.k3sActive && a.w.source.pods == []
    ensures Leads(a, b, false, address) && DoneWith(a, b, Stop)
    ensures b.w.source == a.w.source.(timersActive := false, timersEnabled := false)
    ensures b.w.saved.stopAt == a.w.source.clock && b.w.halted == Scaled(a.w.source.replicas, STORES)
  {
    Stays(a, false, address);
    b := Beginning(a, a, Stop, false, address);
    b := StopTimersAndPoll(a, b, address);
    b := Saving(a, b, Stop, b.w.source.clock, address);
  }

  lemma BeginOne(a: State, m: State, at: int, address: string) returns (b: State)
    requires Leads(a, m, false, address) && m.at == Busy(Bundle, Some(Poll(STORES))) && m.w.saved.mode.Move?
    requires m.w.source.making.NotMaking? && at == m.w.source.clock
    ensures Leads(a, b, false, address) && b.at == Busy(Bundle, Some(NowBegins(at)))
    ensures b.w == m.w.(source := m.w.source.(making := Begun(at)))
  {
    b := Sending(a, m, NowBegins(at), false, address);
  }

  lemma ReadOne(a: State, m: State, at: int, address: string) returns (b: State)
    requires Leads(a, m, false, address) && m.at == Busy(Bundle, Some(Poll(STORES))) && m.w.saved.mode.Move?
    requires m.w.source.k3sActive && m.w.source.making.NotMaking? && at == m.w.source.clock
    ensures Leads(a, b, false, address) && b.at == Busy(Bundle, Some(NowReads(at)))
    ensures b.w == m.w.(source := m.w.source.(making := HasRead(at, m.w.source.log)))
  {
    b := BeginOne(a, m, at, address);
    b := Sending(a, b, NowReads(at), false, address);
  }

  lemma MakeOne(a: State, m: State, at: int, address: string) returns (b: State)
    requires Leads(a, m, false, address) && m.at == Busy(Bundle, Some(Poll(STORES))) && m.w.saved.mode.Move?
    requires m.w.source.k3sActive && m.w.source.making.NotMaking? && at == m.w.source.clock
    ensures Leads(a, b, false, address) && b.at == Busy(Bundle, Some(NowPublishes(at)))
    ensures b.w == m.w.(source := m.w.source.(bundles := m.w.source.bundles[at := m.w.source.log]))
  {
    b := ReadOne(a, m, at, address);
    b := Sending(a, b, NowPublishes(at), false, address);
  }

  lemma CarryOne(a: State, m: State, name: int, address: string) returns (b: State)
    requires Leads(a, m, false, address) && m.at.Busy? && m.at.step.Bundle?
    requires BundleOrder(m.w.saved.mode, m.at.last, List(name)) && Answers(m.w, List(name), address)
    ensures Leads(a, b, false, address) && b.at == Busy(Bundle, Some(Push(name, m.w.source.bundles[name])))
    ensures b.w == m.w.(target := m.w.target.(staged := m.w.target.staged[name := m.w.source.bundles[name]]))
  {
    b := Sending(a, m, List(name), false, address);
    b := Sending(a, b, Push(name, m.w.source.bundles[name]), false, address);
  }

  predicate GreatestOf(o: Old, name: int) {
    (name in o.bundles || name == o.clock) && o.clock <= name && forall c :: c in o.bundles ==> c <= name
  }

  lemma CarryFresh(a: State, m: State, name: int, address: string) returns (b: State)
    requires Leads(a, m, false, address) && m.at == Busy(Bundle, None) && m.w.saved.mode.Move?
    requires m.w.source.k3sActive && m.w.source.pods == [] && m.w.source.making.NotMaking?
    requires GreatestOf(m.w.source, name) && m.w.saved.stopAt <= name
    ensures
      var bundles := m.w.source.bundles[m.w.source.clock := m.w.source.log];
      && Leads(a, b, false, address) && b.at == Busy(Bundle, Some(Push(name, bundles[name])))
      && b.w == m.w.(source := m.w.source.(bundles := bundles),
                     target := m.w.target.(staged := m.w.target.staged[name := bundles[name]]))
  {
    b := Sending(a, m, Poll(STORES), false, address);
    b := MakeOne(a, b, m.w.source.clock, address);
    b := CarryOne(a, b, name, address);
  }

  /** In a move, the driver's own bundle of this second, then the greatest name. */
  lemma FinishBundle(a: State, name: int, address: string) returns (b: State)
    requires a.at.Idle? && Turn(a.w.saved, Bundle) && a.w.saved.mode.Move?
    requires a.w.source.k3sActive && a.w.source.pods == [] && a.w.source.making.NotMaking?
    requires GreatestOf(a.w.source, name) && a.w.saved.stopAt <= name
    ensures Leads(a, b, false, address) && DoneWith(a, b, Bundle)
    ensures b.w.source == a.w.source.(bundles := a.w.source.bundles[a.w.source.clock := a.w.source.log])
    ensures b.w.saved.bundle == name && name in b.w.target.staged
    ensures b.w.target.staged[name] == b.w.source.bundles[name]
  {
    Stays(a, false, address);
    b := Beginning(a, a, Bundle, false, address);
    b := CarryFresh(a, b, name, address);
    b := Saving(a, b, Bundle, name, address);
  }

  /** In a rehearsal, the greatest name. */
  lemma FinishRehearsedBundle(a: State, name: int, address: string) returns (b: State)
    requires a.at.Idle? && Turn(a.w.saved, Bundle) && a.w.saved.mode.Rehearse?
    requires name in a.w.source.bundles && forall c :: c in a.w.source.bundles ==> c <= name
    ensures Leads(a, b, false, address) && DoneWith(a, b, Bundle)
  {
    Stays(a, false, address);
    b := Beginning(a, a, Bundle, false, address);
    b := CarryOne(a, b, name, address);
    b := Saving(a, b, Bundle, name, address);
  }

  /** The workloads of `todo`, one by one, to zero. */
  lemma {:induction false} ScaleEach(a: State, m: State, todo: set<Workload>, address: string) returns (b: State)
    requires Leads(a, m, false, address) && m.at.Busy? && Scaling(m.at.last) && m.w.source.k3sActive
    requires m.at.step.Fence? || (m.at.step.Stop? && forall wl :: wl in todo ==> wl.name !in STORES)
    requires forall wl :: wl in todo ==> wl in m.w.source.replicas && wl.ns in NAMESPACES
    ensures Leads(a, b, false, address)
    ensures b.at.Busy? && b.at.step == m.at.step && Scaling(b.at.last)
    ensures b.w == m.w.(source := m.w.source.(replicas := b.w.source.replicas))
    ensures b.w.source.replicas.Keys == m.w.source.replicas.Keys
    ensures forall wl :: wl in m.w.source.replicas ==>
      b.w.source.replicas[wl] == if wl in todo then 0 else m.w.source.replicas[wl]
    decreases todo
  {
    if todo == {} {
      b := m;
    } else {
      var wl := Sets.Inhabitant(todo);
      var n := Sending(a, m, ScaleToZero(wl), false, address);
      b := ScaleEach(a, n, todo - {wl}, address);
    }
  }

  lemma FenceAll(a: State, m: State, address: string) returns (b: State)
    requires Leads(a, m, false, address) && m.at == Busy(Fence, None)
    requires m.w.source.k3sActive && m.w.source.pods == []
    ensures Leads(a, b, false, address) && b.at == Busy(Fence, Some(Poll({})))
    ensures b.w == m.w.(source := m.w.source.(replicas := b.w.source.replicas))
  {
    b := ScaleEach(a, m, (set wl | wl in m.w.source.replicas && wl.ns in NAMESPACES), address);
    assert Scaled(b.w.source.replicas, {});
    b := Sending(a, b, ScaledAll, false, address);
    b := Sending(a, b, Poll({}), false, address);
  }

  lemma StopOldK3s(a: State, m: State, address: string) returns (b: State)
    requires Leads(a, m, false, address) && m.at == Busy(Fence, Some(Poll({})))
    ensures Leads(a, b, false, address) && b.at == Busy(Fence, Some(DisableAndStopK3s))
    ensures b.w == m.w.(source := m.w.source.(marker := address, k3sActive := false, k3sEnabled := false))
  {
    b := Sending(a, m, WriteMarker, false, address);
    b := Sending(a, b, DisableAndStopK3s, false, address);
  }

  lemma ReadBack(a: State, m: State, address: string) returns (b: State)
    requires Leads(a, m, false, address) && m.at == Busy(Fence, Some(DisableAndStopK3s))
    requires !NotFenced(m.w.source, address)
    ensures Leads(a, b, false, address) && b.at == Busy(Fence, Some(ReadFence)) && b.w == m.w
  {
    b := Sending(a, m, ReadFence, false, address);
  }

  lemma FenceAndRead(a: State, m: State, address: string) returns (b: State)
    requires Leads(a, m, false, address) && m.at == Busy(Fence, None)
    requires m.w.source.k3sActive && m.w.source.pods == []
    ensures Leads(a, b, false, address) && b.at == Busy(Fence, Some(ReadFence))
    ensures b.w == m.w.(source := m.w.source.(
      replicas := b.w.source.replicas, marker := address, k3sActive := false, k3sEnabled := false))
  {
    b := FenceAll(a, m, address);
    b := StopOldK3s(a, b, address);
    b := ReadBack(a, b, address);
  }

  lemma FinishFence(a: State, address: string) returns (b: State)
    requires a.at.Idle? && Turn(a.w.saved, Fence) && a.w.source.k3sActive && a.w.source.pods == []
    ensures Leads(a, b, false, address) && DoneWith(a, b, Fence)
    ensures !NotFenced(b.w.source, address) && b.w.source.log == a.w.source.log && b.w.target == a.w.target
  {
    Stays(a, false, address);
    b := Beginning(a, a, Fence, false, address);
    b := FenceAndRead(a, b, address);
    b := Saving(a, b, Fence, 0, address);
  }

  // What comes first: the pods ended, k3s started again by hand if need be.

  lemma K3sUp(a: State, aided: bool, address: string) returns (b: State)
    requires Inv(a.w, address) && Fence !in a.w.saved.done && (aided || a.w.source.k3sActive)
    ensures Leads(a, b, aided, address) && b.at == a.at
    ensures b.w == a.w.(source :=
      a.w.source.(k3sActive := true, k3sEnabled := b.w.source.k3sEnabled, pods := []))
  {
    Stays(a, aided, address);
    b := a;
    if !a.w.source.k3sActive {
      b := Meanwhile(a, b, Hands(true, a.w.source.marker), aided, address);
    }
    b := Meanwhile(a, b, OldPods([]), aided, address);
  }

  lemma LaterThan(names: set<int>, x: int) returns (to: int)
    ensures x <= to && forall c :: c in names ==> c < to
    decreases names
  {
    if names == {} {
      to := x;
    } else {
      var c := Sets.Inhabitant(names);
      to := LaterThan(names - {c}, x);
      assert forall d :: d in names ==> d == c || d in names - {c};
      if to <= c { to := c + 1; }
    }
  }

  lemma Greatest(names: set<int>) returns (name: int)
    requires names != {}
    ensures name in names && forall c :: c in names ==> c <= name
    decreases names
  {
    var c := Sets.Inhabitant(names);
    name := c;
    if names - {c} != {} {
      var other := Greatest(names - {c});
      if c < other { name := other; }
    }
    assert forall d :: d in names ==> d == c || d in names - {c};
  }

  /** Any bundle under way given up, and the clock past every bundle and the stop. */
  lemma Cleared(a: State, aided: bool, address: string) returns (b: State)
    ensures Leads(a, b, aided, address) && b.at == a.at
    ensures b.w == a.w.(source := a.w.source.(making := NotMaking, clock := b.w.source.clock))
    ensures a.w.saved.stopAt <= b.w.source.clock
    ensures forall c :: c in b.w.source.bundles ==> c < b.w.source.clock
  {
    Stays(a, aided, address);
    var o := a.w.source;
    var to := LaterThan(o.bundles.Keys, if o.clock <= a.w.saved.stopAt then a.w.saved.stopAt else o.clock);
    b := Meanwhile(a, a, AbortBundle, aided, address);
    b := Meanwhile(a, b, Clock(to), aided, address);
  }

  lemma NotYetFenced(s: Saved, step: Step)
    requires DoneInOrder(s) && Turn(s, step) && Rank(step) <= Rank(Fence)
    ensures Fence !in s.done
  {
    EarlierAreDone(s, step);
  }

  lemma Finishes(a: State, m: State, b: State, step: Step, aided: bool, address: string)
    requires Leads(a, m, aided, address) && Leads(m, b, false, address) && DoneWith(m, b, step)
    ensures CanFinish(a, step, aided, address)
  {
    LeadsAided(m, b, aided, address);
    LeadsOn(a, m, b, aided, address);
  }

  lemma HaltingCanFinish(a: State, step: Step, aided: bool, address: string)
    requires Holds(a, address) && a.at.Idle? && Turn(a.w.saved, step) && Needs(a.w, step, aided, address)
    requires step.Mute? || step.Stop? || step.Fence?
    ensures CanFinish(a, step, aided, address)
  {
    NotYetFenced(a.w.saved, step);
    var m := K3sUp(a, aided, address);
    var b;
    if step.Mute? {
      b := FinishMute(m, address);
    } else if step.Stop? {
      b := FinishStop(m, address);
    } else {
      b := FinishFence(m, address);
    }
    Finishes(a, m, b, step, aided, address);
  }

  lemma BundleCanFinish(a: State, aided: bool, address: string)
    requires Holds(a, address) && a.at.Idle? && Turn(a.w.saved, Bundle) && a.w.saved.mode.Move?
    requires aided || a.w.source.k3sActive
    ensures CanFinish(a, Bundle, aided, address)
  {
    NotYetFenced(a.w.saved, Bundle);
    var up := K3sUp(a, aided, address);
    var m := Cleared(up, aided, address);
    LeadsOn(a, up, m, aided, address);
    var b := FinishBundle(m, m.w.source.clock, address);
    Finishes(a, m, b, Bundle, aided, address);
  }

  lemma MakesOne(a: State, aided: bool, address: string) returns (m: State)
    requires a.w.source.k3sActive || HasBundle(a.w.source)
    ensures Leads(a, m, aided, address) && m.at == a.at && m.w.saved == a.w.saved && m.w.source.bundles.Keys != {}
  {
    Stays(a, aided, address);
    m := a;
    if a.w.source.bundles.Keys == {} {
      if !a.w.source.making.HasRead? { m := ReadsOne(a, aided, address); }
      var at := m.w.source.making.at;
      m := Meanwhile(a, m, PublishBundle, aided, address);
      assert at in m.w.source.bundles.Keys;
    }
  }

  lemma ReadsOne(a: State, aided: bool, address: string) returns (m: State)
    requires a.w.source.k3sActive
    ensures Leads(a, m, aided, address) && m.at == a.at && m.w.saved == a.w.saved && m.w.source.making.HasRead?
  {
    Stays(a, aided, address);
    m := Meanwhile(a, a, AbortBundle, aided, address);
    m := Meanwhile(a, m, BeginBundle, aided, address);
    m := Meanwhile(a, m, ReadBundle, aided, address);
  }

  lemma RehearsedBundleCanFinish(a: State, aided: bool, address: string)
    requires Holds(a, address) && a.at.Idle? && Turn(a.w.saved, Bundle) && a.w.saved.mode.Rehearse?
    requires aided || a.w.source.k3sActive || HasBundle(a.w.source)
    ensures CanFinish(a, Bundle, aided, address)
  {
    NotYetFenced(a.w.saved, Bundle);
    Stays(a, aided, address);
    var up := a;
    if !HasBundle(a.w.source) { up := K3sUp(a, aided, address); }
    var m := MakesOne(up, aided, address);
    LeadsOn(a, up, m, aided, address);
    var name := Greatest(m.w.source.bundles.Keys);
    var b := FinishRehearsedBundle(m, name, address);
    Finishes(a, m, b, Bundle, aided, address);
  }

  lemma OpenCanFinish(a: State, aided: bool, address: string)
    requires Holds(a, address) && a.at.Idle? && Turn(a.w.saved, Open) && Needs(a.w, Open, aided, address)
    ensures CanFinish(a, Open, aided, address)
  {
    Stays(a, aided, address);
    var m := a;
    if NotFenced(a.w.source, address) { m := Meanwhile(a, a, Hands(false, address), aided, address); }
    var b := FinishOpen(m, address);
    Finishes(a, m, b, Open, aided, address);
  }

  lemma OthersCanFinish(a: State, step: Step, aided: bool, address: string)
    requires Holds(a, address) && a.at.Idle? && Turn(a.w.saved, step) && Needs(a.w, step, aided, address)
    requires step.Check? || step.Install? || step.Deploy? || step.Restore? || step.Repoint?
    ensures CanFinish(a, step, aided, address)
  {
    Stays(a, aided, address);
    var b;
    match step {
      case Install => b := FinishInstall(a, address);
      case Restore => b := FinishRestore(a, address);
      case Repoint => b := FinishRepoint(a, address);
      case _ => b := FinishAtOnce(a, step, address);
    }
    Finishes(a, a, b, step, aided, address);
  }

  /** From any state of any run with the driver gone: the step whose turn it is can be run to its
      end, in one attempt or many, exactly when what it needs is there. */
  lemma RerunFinishesIff(a: State, step: Step, aided: bool, address: string)
    requires Holds(a, address) && a.at.Idle? && Turn(a.w.saved, step)
    ensures CanFinish(a, step, aided, address) <==> Needs(a.w, step, aided, address)
  {
    if !Needs(a.w, step, aided, address) {
      StuckCannotFinish(a, step, aided, address);
    } else if step.Mute? || step.Stop? || step.Fence? {
      HaltingCanFinish(a, step, aided, address);
    } else if step.Bundle? && a.w.saved.mode.Move? {
      BundleCanFinish(a, aided, address);
    } else if step.Bundle? {
      RehearsedBundleCanFinish(a, aided, address);
    } else if step.Open? {
      OpenCanFinish(a, aided, address);
    } else {
      OthersCanFinish(a, step, aided, address);
    }
  }

  // --- Who takes it away --------------------------------------------------------------

  /** The four steps whose own commands take away what they need. */
  predicate Strands(step: Step) { step.Restore? || step.Fence? || step.Open? || step.Repoint? }

  lemma MuteLeavesK3s(w: World, last: Option<Command>, c: Command, address: string)
    requires MuteOrder(last, c)
    ensures Sent(w, c, address).source == w.source
  {
    ElsewhereLeavesTheOld(w, c, address);
  }

  lemma StopLeavesK3s(w: World, last: Option<Command>, c: Command, address: string)
    requires StopOrder(last, c)
    ensures Sent(w, c, address).source.k3sActive == w.source.k3sActive
  {
    if !OnSource(c) { ElsewhereLeavesTheOld(w, c, address); }
  }

  lemma BundleLeavesK3s(w: World, last: Option<Command>, c: Command, address: string)
    requires BundleOrder(w.saved.mode, last, c)
    ensures Sent(w, c, address).source.k3sActive == w.source.k3sActive
  {
    if !OnSource(c) { ElsewhereLeavesTheOld(w, c, address); }
  }

  lemma OthersLeaveK3s(w: World, at: Attempt, c: Command, address: string)
    requires Sendable(w, at, c, address) && (at.step.Mute? || at.step.Stop? || at.step.Bundle?)
    ensures Sent(w, c, address).source.k3sActive == w.source.k3sActive
  {
    if at.step.Mute? {
      MuteLeavesK3s(w, at.last, c, address);
    } else if at.step.Stop? {
      StopLeavesK3s(w, at.last, c, address);
    } else {
      BundleLeavesK3s(w, at.last, c, address);
    }
  }

  /** No command of the driver takes away what another step needs. */
  lemma OthersAreNotStranded(s: State, h: Happening, step: Step, address: string)
    requires Holds(s, address) && CanHappen(s, h, address) && !h.Outside?
    requires Turn(s.w.saved, step) && !Strands(step) && Needs(s.w, step, false, address)
    ensures
      var w := Next(s, h, address).w;
      step in w.saved.done || Needs(w, step, false, address)
  {
    if h.Sends? {
      OneTurn(s.w.saved, s.at.step, step);
      if step.Mute? || step.Stop? || step.Bundle? { OthersLeaveK3s(s.w, s.at, h.c, address); }
      if s.w.saved.mode.Rehearse? { RehearsalOnlyReads(s.w, s.at, h.c, address); }
      NextSaved(s, h, address);
    }
  }

  lemma FenceCutOff(a: State, address: string) returns (b: State)
    requires Holds(a, address) && a.at.Idle? && Turn(a.w.saved, Fence) && a.w.source.k3sActive
    ensures Leads(a, b, false, address) && b.at.Idle? && b.w.saved == a.w.saved && !b.w.source.k3sActive
  {
    var m := K3sUp(a, false, address);
    b := Beginning(a, m, Fence, false, address);
    b := FenceAll(a, b, address);
    b := StopOldK3s(a, b, address);
    b := Then(a, b, Ends, false, address);
  }

  lemma OpenCutOff(a: State, address: string) returns (b: State)
    requires a.at.Idle? && Turn(a.w.saved, Open) && a.w.target.muteUnit && !NotFenced(a.w.source, address)
    ensures Leads(a, b, false, address) && b.at.Idle? && b.w.saved == a.w.saved && !b.w.target.muteUnit
  {
    Stays(a, false, address);
    b := Beginning(a, a, Open, false, address);
    b := Sending(a, b, ReadEvidence, false, address);
    b := RemoveMute(a, b, address);
    b := Then(a, b, Ends, false, address);
  }

  lemma RestoreCutOff(a: State, address: string) returns (b: State)
    requires a.at.Idle? && Turn(a.w.saved, Restore) && a.w.saved.bundle in a.w.target.staged
    ensures Leads(a, b, false, address) && b.at.Idle? && b.w.saved == a.w.saved && b.w.target.staged == map[]
  {
    Stays(a, false, address);
    b := Beginning(a, a, Restore, false, address);
    b := Sending(a, b, RestoreBegins, false, address);
    b := Sending(a, b, ClearStaged(false), false, address);
    b := Then(a, b, Ends, false, address);
  }

  lemma RepointCutOff(a: State, address: string) returns (b: State)
    requires a.at.Idle? && Turn(a.w.saved, Repoint) && !a.w.edgeAtNew
    ensures Leads(a, b, false, address) && b.at.Idle? && b.w.saved == a.w.saved && b.w.edgeAtNew
  {
    Stays(a, false, address);
    b := Beginning(a, a, Repoint, false, address);
    b := Sending(a, b, PointEdge, false, address);
    b := Then(a, b, Ends, false, address);
  }

  /** Each of the four, cut off or failed late, leaves a state from which no `run` comes to its
      end: a fence until k3s is started by hand, the others whatever is done about the old server. */
  lemma CutOffStrands(a: State, step: Step, address: string) returns (b: State)
    requires Holds(a, address) && a.at.Idle? && Turn(a.w.saved, step)
    requires Strands(step) && Needs(a.w, step, false, address)
    ensures Leads(a, b, false, address) && b.at.Idle? && Turn(b.w.saved, step)
    ensures !CanFinish(b, step, !step.Fence?, address)
    ensures step.Fence? ==> CanFinish(b, step, true, address)
  {
    match step {
      case Fence => b := FenceCutOff(a, address);
      case Open => b := OpenCutOff(a, address);
      case Restore => b := RestoreCutOff(a, address);
      case Repoint => b := RepointCutOff(a, address);
    }
    LeadsHolds(a, b, false, address);
    RerunFinishesIff(b, step, !step.Fence?, address);
    RerunFinishesIff(b, step, true, address);
  }

  // --- Such states there are ----------------------------------------------------------

  /** All of the move's steps before `step` are done, and no other. */
  predicate UpTo(s: Saved, step: Step) { s.mode.Move? && forall x :: x in s.done <==> Rank(x) < Rank(step) }

  lemma UpToIsTurn(s: Saved, step: Step)
    requires UpTo(s, step)
    ensures Turn(s, step)
  {
  }

  lemma UpToNext(a: State, b: State, step: Step, next: Step)
    requires UpTo(a.w.saved, step) && DoneWith(a, b, step) && Rank(next) == Rank(step) + 1
    ensures UpTo(b.w.saved, next) && Turn(b.w.saved, next)
  {
    assert forall x :: Rank(x) == Rank(step) ==> x == step;
    assert b.w.saved.done == a.w.saved.done + {step};
  }

  lemma StillMuted(a: State, address: string)
    requires Holds(a, address) && UpTo(a.w.saved, Restore)
    ensures Muted(a.w.target)
  {
  }

  /** Everything up to the stop, the old server as it was. */
  lemma ReachesStop(a: State, address: string) returns (b: State)
    requires a.at.Idle? && Start(a.w) && a.w.saved.mode.Move? && a.w.source.k3sActive
    ensures Leads(a, b, false, address) && Holds(b, address)
    ensures b.at.Idle? && UpTo(b.w.saved, Stop) && b.w.source == a.w.source && !b.w.steppedBack
  {
    StartHolds(a, address);
    assert UpTo(a.w.saved, Check);
    var c := FinishAtOnce(a, Check, address);
    UpToNext(a, c, Check, Mute);
    var m := FinishMute(c, address);
    UpToNext(c, m, Mute, Install);
    LeadsOn(a, c, m, false, address);
    var i := FinishInstall(m, address);
    UpToNext(m, i, Install, Deploy);
    LeadsOn(a, m, i, false, address);
    b := FinishAtOnce(i, Deploy, address);
    UpToNext(i, b, Deploy, Stop);
    LeadsOn(a, i, b, false, address);
    LeadsHolds(a, b, false, address);
  }

  lemma ReachesRestore(a: State, address: string) returns (b: State)
    requires a.at.Idle? && Start(a.w) && a.w.saved.mode.Move? && a.w.source.k3sActive
    ensures Leads(a, b, false, address) && Holds(b, address) && b.at.Idle? && UpTo(b.w.saved, Restore)
    ensures b.w.saved.bundle in b.w.target.staged && b.w.source.k3sActive && b.w.source.pods == []
  {
    var r := ReachesStop(a, address);
    var q := K3sUp(r, false, address);
    LeadsOn(a, r, q, false, address);
    var s := FinishStop(q, address);
    UpToNext(q, s, Stop, Bundle);
    LeadsOn(a, q, s, false, address);
    var m := Cleared(s, false, address);
    LeadsOn(a, s, m, false, address);
    b := FinishBundle(m, m.w.source.clock, address);
    UpToNext(m, b, Bundle, Restore);
    LeadsOn(a, m, b, false, address);
    StartHolds(a, address);
    LeadsHolds(a, b, false, address);
  }

  lemma ReachesOpen(a: State, address: string) returns (f: State, b: State)
    requires a.at.Idle? && Start(a.w) && a.w.saved.mode.Move? && a.w.source.k3sActive
    ensures Leads(a, f, false, address) && f.at.Idle? && UpTo(f.w.saved, Fence) && f.w.source.k3sActive
    ensures Leads(a, b, false, address) && b.at.Idle? && UpTo(b.w.saved, Open)
    ensures b.w.target.muteUnit && !NotFenced(b.w.source, address)
  {
    var r := ReachesRestore(a, address);
    UpToIsTurn(r.w.saved, Restore);
    StillMuted(r, address);
    f := FinishRestore(r, address);
    UpToNext(r, f, Restore, Fence);
    LeadsOn(a, r, f, false, address);
    b := FinishFence(f, address);
    UpToNext(f, b, Fence, Open);
    LeadsOn(a, f, b, false, address);
  }

  lemma EdgeIsOld(a: State, address: string)
    requires Holds(a, address) && UpTo(a.w.saved, Open)
    ensures !a.w.edgeAtNew
  {
  }

  lemma ReachesRepoint(a: State, address: string) returns (b: State)
    requires a.at.Idle? && Start(a.w) && a.w.saved.mode.Move? && a.w.source.k3sActive
    ensures Leads(a, b, false, address) && b.at.Idle? && UpTo(b.w.saved, Repoint) && !b.w.edgeAtNew
  {
    var f, o := ReachesOpen(a, address);
    UpToIsTurn(o.w.saved, Open);
    StartHolds(a, address);
    LeadsHolds(a, o, false, address);
    EdgeIsOld(o, address);
    b := FinishOpen(o, address);
    UpToNext(o, b, Open, Repoint);
    LeadsOn(a, o, b, false, address);
  }

  /** From any start, with no hand on the old server, a run comes to each of the four with all it
      needs. */
  lemma ReachesEach(a: State, step: Step, address: string) returns (b: State)
    requires a.at.Idle? && Start(a.w) && a.w.saved.mode.Move? && a.w.source.k3sActive && Strands(step)
    ensures Leads(a, b, false, address) && b.at.Idle? && UpTo(b.w.saved, step) && Needs(b.w, step, false, address)
  {
    if step.Restore? {
      b := ReachesRestore(a, address);
    } else if step.Repoint? {
      b := ReachesRepoint(a, address);
    } else {
      var f, o := ReachesOpen(a, address);
      b := if step.Fence? then f else o;
    }
  }

  /** And may be stranded there. */
  lemma RunMayBeStranded(a: State, step: Step, address: string) returns (b: State)
    requires a.at.Idle? && Start(a.w) && a.w.saved.mode.Move? && a.w.source.k3sActive && Strands(step)
    ensures Leads(a, b, false, address) && b.at.Idle? && Turn(b.w.saved, step)
    ensures !CanFinish(b, step, !step.Fence?, address)
  {
    var m := ReachesEach(a, step, address);
    UpToIsTurn(m.w.saved, step);
    StartHolds(a, address);
    LeadsHolds(a, m, false, address);
    b := CutOffStrands(m, step, address);
    LeadsOn(a, m, b, false, address);
  }
}

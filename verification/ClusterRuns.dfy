/** Whole runs of a cluster move: the driver's commands in their order, any event between two of
    them, each attempt at a step refused, cut off or killed anywhere and begun again
    (scripts/move/cluster_move.py, cluster_run.py). */
module ClusterRuns {
  import opened ClusterWorld
  import opened ClusterProtocol
  import opened Wrappers

  datatype State = State(w: World, at: Attempt)

  /** What happens next: an event outside, an attempt begun, a command that came back without an
      error, or the attempt's end by a refusal, an error or a crash. */
  datatype Happening = Outside(e: Event) | Begins(step: Step) | Sends(c: Command) | Ends

  predicate CanHappen(s: State, h: Happening, address: string) {
    match h
    case Outside(e) => Possible(s.w, e)
    case Begins(step) => s.at.Idle? && InTurn(s.w.saved, Busy(step, None))
    case Sends(c) => Sendable(s.w, s.at, c, address)
    case Ends => s.at.Busy?
  }

  function Next(s: State, h: Happening, address: string): State
    requires CanHappen(s, h, address)
  {
    match h
    case Outside(e) => s.(w := Happens(s.w, e))
    case Begins(step) => s.(at := Busy(step, None))
    case Sends(c) => State(Sent(s.w, c, address), Going(s.at, c))
    case Ends => s.(at := Idle)
  }

  // A state, and what led to it.
  datatype Moment = Moment(how: Happening, s: State)

  predicate IsHands(h: Happening) { h.Outside? && h.e.Hands? }

  predicate Follows(a: State, m: Moment, aided: bool, address: string) {
    CanHappen(a, m.how, address) && m.s == Next(a, m.how, address) && (aided || !IsHands(m.how))
  }

  /** Each moment comes out of the one before; unaided, no hand touches k3s or the marker. */
  predicate Chain(seen: seq<Moment>, aided: bool, address: string)
    decreases |seen|
  {
    && seen != []
    && (|seen| > 1 ==>
      Chain(seen[..|seen| - 1], aided, address) && Follows(seen[|seen| - 2].s, seen[|seen| - 1], aided, address))
  }

  function Last(seen: seq<Moment>): State
    requires seen != []
  {
    seen[|seen| - 1].s
  }

  /** A fresh state file, and the hypothesis of a run: the new server is empty. */
  predicate Start(w: World) {
    && w.saved == Saved(w.saved.mode, {}, 0, 0)
    && NewQuiet(w.target)
    && !w.opening && !w.steppedBack && !w.edgeAtNew && !w.domesticAtNew
    && StoresAreStateful(w.source.replicas)
    && (w.source.k3sEnabled ==> w.source.k3sActive)
    && (forall c :: c in w.source.bundles ==> c <= w.source.clock)
    && (!w.source.making.NotMaking? ==> w.source.making.at <= w.source.clock)
  }

  ghost predicate Legal(seen: seq<Moment>, address: string) {
    Chain(seen, true, address) && seen[0].s.at.Idle? && Start(seen[0].s.w)
  }

  // --- What every run keeps ---------------------------------------------------

  ghost predicate Holds(s: State, address: string) { Inv(s.w, address) && Progress(s.w, s.at) }

  lemma StartHolds(s: State, address: string)
    requires s.at.Idle? && Start(s.w)
    ensures Holds(s, address)
  {
  }

  lemma NextHolds(s: State, h: Happening, address: string)
    requires Holds(s, address) && CanHappen(s, h, address)
    ensures Holds(Next(s, h, address), address)
  {
    match h
    case Outside(e) =>
      EventKeepsInv(s.w, e, address);
      EventKeepsProgress(s.w, e, s.at, address);
    case Sends(c) => CommandKeepsInv(s.w, s.at, c, address);
    case _ =>
  }

  lemma {:induction false} ChainHolds(seen: seq<Moment>, aided: bool, address: string, i: nat)
    requires Chain(seen, aided, address) && Holds(seen[0].s, address) && i < |seen|
    ensures Holds(seen[i].s, address)
    decreases i
  {
    if i > 0 {
      ChainHolds(seen, aided, address, i - 1);
      Linked(seen, aided, address, i);
      NextHolds(seen[i - 1].s, seen[i].how, address);
    }
  }

  lemma {:induction false} Linked(seen: seq<Moment>, aided: bool, address: string, i: nat)
    requires Chain(seen, aided, address) && 0 < i < |seen|
    ensures Follows(seen[i - 1].s, seen[i], aided, address)
    decreases |seen|
  {
    if i < |seen| - 1 { Linked(seen[..|seen| - 1], aided, address, i); }
  }

  lemma Extended(seen: seq<Moment>, m: Moment, aided: bool, address: string)
    requires Chain(seen, aided, address) && Follows(Last(seen), m, aided, address)
    ensures Chain(seen + [m], aided, address) && Last(seen + [m]) == m.s && (seen + [m])[0] == seen[0]
  {
    assert (seen + [m])[..|seen|] == seen;
  }

  /** Every moment of every run: one writer, and a new server that sends only beside an old one
      that carries the marker, runs no k3s and sends nothing. */
  lemma EveryMomentHasOneWriter(seen: seq<Moment>, address: string, i: nat)
    requires Legal(seen, address) && i < |seen|
    ensures OneWriter(seen[i].s.w)
    ensures NewSends(seen[i].s.w.target) ==>
      seen[i].s.w.source.marker == address && !seen[i].s.w.source.k3sActive && !OldSends(seen[i].s.w.source)
  {
    StartHolds(seen[0].s, address);
    ChainHolds(seen, true, address, i);
    InvIsOneWriter(seen[i].s.w, address);
  }

  /** Whenever the new server is open, its data holds every write ever made on the old one: if
      the stop left no workload running, and no half-written bundle of its second was carried. */
  lemma NothingIsLost(seen: seq<Moment>, address: string, i: nat)
    requires Legal(seen, address) && i < |seen|
    requires Open in seen[i].s.w.saved.done || NewSends(seen[i].s.w.target)
    ensures seen[i].s.w.target.restored.Some?
    ensures
      var w := seen[i].s.w;
      w.halted && (!w.steppedBack || w.clean || w.saved.bundle != w.saved.stopAt) ==>
        w.target.restored.value == w.source.log
  {
    StartHolds(seen[0].s, address);
    ChainHolds(seen, true, address, i);
    InvIsNothingLost(seen[i].s.w, address);
  }

  /** The state file changes only when a step is saved. */
  lemma NextSaved(s: State, h: Happening, address: string)
    requires CanHappen(s, h, address)
    ensures h.Sends? && h.c.Save? ==> Next(s, h, address).w == SavedAs(s.w, h.c.step, h.c.noted)
    ensures !(h.Sends? && h.c.Save?) ==>
      var w := Next(s, h, address).w;
      w.saved == s.w.saved && w.halted == s.w.halted && w.clean == s.w.clean
  {
    match h
    case Outside(e) => EventSavesNothing(s.w, e);
    case Sends(c) => if !c.Save? { OnlySaveSaves(s.w, c, address); }
    case _ =>
  }

  lemma {:induction false} SameMode(seen: seq<Moment>, aided: bool, address: string, i: nat)
    requires Chain(seen, aided, address) && i < |seen|
    ensures seen[i].s.w.saved.mode == seen[0].s.w.saved.mode
    decreases i
  {
    if i > 0 {
      SameMode(seen, aided, address, i - 1);
      Linked(seen, aided, address, i);
      NextSaved(seen[i - 1].s, seen[i].how, address);
    }
  }

  lemma RehearsingLeavesTheOldServer(s: State, h: Happening, address: string)
    requires Progress(s.w, s.at) && s.w.saved.mode.Rehearse? && CanHappen(s, h, address) && !h.Outside?
    ensures Next(s, h, address).w.source == s.w.source
  {
    match h
    case Sends(c) => RehearsalOnlyReads(s.w, s.at, c, address);
    case _ =>
  }

  lemma ProgressThen(seen: seq<Moment>, aided: bool, address: string, i: nat)
    requires Chain(seen, aided, address) && seen[0].s.at.Idle? && Start(seen[0].s.w) && i < |seen|
    ensures Progress(seen[i].s.w, seen[i].s.at) && seen[i].s.w.saved.mode == seen[0].s.w.saved.mode
  {
    StartHolds(seen[0].s, address);
    ChainHolds(seen, aided, address, i);
    SameMode(seen, aided, address, i);
  }

  /** No driver of a rehearsal changes anything on the old server. */
  lemma RehearsalLeavesTheOldServer(seen: seq<Moment>, address: string, i: nat)
    requires Legal(seen, address) && 0 < i < |seen|
    requires seen[0].s.w.saved.mode.Rehearse? && !seen[i].how.Outside?
    ensures seen[i].s.w.source == seen[i - 1].s.w.source
  {
    ProgressThen(seen, true, address, i - 1);
    Linked(seen, true, address, i);
    RehearsingLeavesTheOldServer(seen[i - 1].s, seen[i].how, address);
  }

  // --- What the new server writes -------------------------------------------------

  lemma OnlyRestoringOverwrites(w: World, c: Command, address: string)
    requires !c.RestoreBegins? && !c.RestoreEnds?
    ensures DataStays(w.target, Sent(w, c, address).target)
  {
    if OnSource(c) || c.Save? { return; }
  }

  lemma RestoringIsOfRestore(mode: Mode, step: Step, last: Option<Command>, c: Command)
    requires Comes(mode, step, last, c) && (c.RestoreBegins? || c.RestoreEnds?)
    ensures step.Restore?
  {
  }

  lemma RestoredIsNotOverwritten(s: State, h: Happening, address: string)
    requires Holds(s, address) && CanHappen(s, h, address) && Restore in s.w.saved.done
    ensures Restore in Next(s, h, address).w.saved.done
    ensures DataStays(s.w.target, Next(s, h, address).w.target)
  {
    NextSaved(s, h, address);
    match h
    case Outside(e) => EventIsKept(s.w, e, address);
    case Sends(c) =>
      if c.RestoreBegins? || c.RestoreEnds? { RestoringIsOfRestore(s.w.saved.mode, s.at.step, s.at.last, c); }
      OnlyRestoringOverwrites(s.w, c, address);
    case _ =>
  }

  lemma NextIsNotOverwritten(seen: seq<Moment>, address: string, i: nat)
    requires Legal(seen, address) && 0 < i < |seen| && Restore in seen[i - 1].s.w.saved.done
    ensures Restore in seen[i].s.w.saved.done && DataStays(seen[i - 1].s.w.target, seen[i].s.w.target)
  {
    StartHolds(seen[0].s, address);
    ChainHolds(seen, true, address, i - 1);
    Linked(seen, true, address, i);
    RestoredIsNotOverwritten(seen[i - 1].s, seen[i].how, address);
  }

  lemma StaysOn(a: New, b: New, c: New)
    requires DataStays(a, b) && DataStays(b, c)
    ensures DataStays(a, c)
  {
  }

  /** From the moment `restore` is saved, no run takes away what was restored, or anything the new
      server has written since. */
  lemma {:induction false} NewWritesStay(seen: seq<Moment>, address: string, i: nat, j: nat)
    requires Legal(seen, address) && i <= j < |seen| && Restore in seen[i].s.w.saved.done
    ensures Restore in seen[j].s.w.saved.done && DataStays(seen[i].s.w.target, seen[j].s.w.target)
    decreases j
  {
    if i < j {
      NewWritesStay(seen, address, i, j - 1);
      NextIsNotOverwritten(seen, address, j);
      StaysOn(seen[i].s.w.target, seen[j - 1].s.w.target, seen[j].s.w.target);
    }
  }

  // --- The attempts begun -----------------------------------------------------------

  /** The steps that attempts were begun at, in their order. */
  function Attempts(seen: seq<Moment>): seq<Step> {
    if seen == [] then [] else
    var last := seen[|seen| - 1].how;
    Attempts(seen[..|seen| - 1]) + if last.Begins? then [last.step] else []
  }

  /** A command is of a step an attempt was begun at. */
  lemma {:induction false} CommandsAreOfAttempts(seen: seq<Moment>, aided: bool, address: string)
    requires Chain(seen, aided, address) && seen[0].s.at.Idle? && Last(seen).at.Busy?
    ensures Last(seen).at.step in Attempts(seen)
    decreases |seen|
  {
    var front, last := seen[..|seen| - 1], seen[|seen| - 1];
    if !last.how.Begins? { CommandsAreOfAttempts(front, aided, address); }
  }
}

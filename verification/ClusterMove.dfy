/** A production cluster's move to another server, one writer at any moment
    (scripts/move/cluster_move.py, cluster_open.py, cluster_run.py).

    Every remote action is one `Act`: it may fail with or without its effect, any number of
    outside events may follow, and the driver may be gone; a refusal, an error and a crash all
    leave the state file as it was. A run is the constructor, on an empty new server, then any
    number of `RunAll`; `seen` is every state it has passed through, each with what led to it. */
module ClusterMove {
  import opened ClusterWorld
  import opened ClusterProtocol
  import opened ClusterRuns
  import Sets
  import opened Wrappers

  predicate Lower(was: map<Workload, nat>, now: map<Workload, nat>, targets: set<Workload>) {
    && now.Keys == was.Keys
    && forall wl :: wl in now ==> now[wl] == was[wl] || (wl in targets && now[wl] == 0)
  }

  predicate SameAttempt(a: Attempt, b: Attempt) {
    a.Busy? && b.Busy? && a.step == b.step
  }

  class Run {
    const address: string          // the new server's
    var w: World
    var at: Attempt
    ghost var seen: seq<Moment>
    ghost var attempts: seq<Step>     // the steps attempts were begun at

    ghost predicate Valid()
      reads this
    {
      Legal(seen, address) && Last(seen) == State(w, at) && attempts == Attempts(seen)
    }

    /** `run`, `move` or `rehearse`: a fresh state file, and the hypothesis of the run. */
    constructor (address: string, start: World)
      requires Start(start)
      ensures Valid() && w == start && at == Idle && this.address == address && |seen| == 1 && attempts == []
    {
      this.address := address;
      w, at := start, Idle;
      seen, attempts := [Moment(Ends, State(start, Idle))], [];
    }

    lemma Now()
      requires Valid()
      ensures Holds(State(w, at), address)
    {
      StartHolds(seen[0].s, address);
      ChainHolds(seen, true, address, |seen| - 1);
    }

    // The same, a part at a time.

    lemma RestoredNow()
      requires Valid() && at.Busy? && at.step.Restore? && at.last.Some?
      ensures RestoreAlong(w, at.last.value)
    {
      Now();
    }

    lemma FencedNow()
      requires Valid() && at.Busy? && at.step.Fence? && at.last == Some(ReadFence)
      ensures Down(w.source)
    {
      Now();
      DoneInTurn(w.saved, Fence);
      EarlierAreDone(w.saved, Fence);
    }

    lemma PointedNow()
      requires Valid() && at.Busy? && at.step.Repoint? && at.last == Some(PointDomestic)
      ensures w.edgeAtNew && w.domesticAtNew
    {
      Now();
      PointedAlong(w, at);
    }

    lemma ClosedNow()
      requires Valid() && at.Busy? && at.step.Open? && at.last.Some?
      ensures Closed(w, address)
    {
      Now();
    }

    method Happened(h: Happening)
      requires Valid() && CanHappen(State(w, at), h, address) && !h.Begins?
      modifies `w, `at, `seen
      ensures Valid() && old(seen) <= seen
      ensures State(w, at) == Next(State(old(w), old(at)), h, address)
    {
      var next := Next(State(w, at), h, address);
      Extended(seen, Moment(h, next), true, address);
      seen := seen + [Moment(h, next)];
      assert seen[..|seen| - 1] == old(seen);
      w, at := next.w, next.at;
    }

    /** The driver turns to a step. */
    method Begin(step: Step)
      requires Valid() && at.Idle? && InTurn(w.saved, Busy(step, None))
      modifies this
      ensures Valid() && old(seen) <= seen && w == old(w) && at == Busy(step, None) && attempts == old(attempts) + [step]
    {
      var h := Begins(step);
      Extended(seen, Moment(h, State(w, Busy(step, None))), true, address);
      seen, attempts := seen + [Moment(h, State(w, Busy(step, None)))], attempts + [step];
      assert seen[..|seen| - 1] == old(seen);
      at := Busy(step, None);
    }

    /** Anything that can happen without the driver, any number of times. */
    method Drift()
      requires Valid()
      modifies `w, `at, `seen
      ensures Valid() && old(seen) <= seen
      ensures at == old(at) && w.saved == old(w.saved) && w.source.replicas == old(w.source.replicas)
    {
      var n: nat := *;
      while n > 0
        invariant Valid() && old(seen) <= seen
        invariant at == old(at) && w.saved == old(w.saved) && w.source.replicas == old(w.source.replicas)
      {
        var e: Event := *;
        if Possible(w, e) {
          EventSavesNothing(w, e);
          Happened(Outside(e));
        }
        n := n - 1;
      }
    }

    /** One remote action of the step under way, then the outside; false when it failed, with or
        without its effect, or when the driver ends here. */
    method Act(c: Command) returns (ok: bool)
      requires Valid() && Sendable(w, at, c, address) && !c.Save?
      modifies `w, `at, `seen
      ensures Valid() && old(seen) <= seen && w.saved == old(w.saved)
      ensures at == Going(old(at), c) || (!ok && at == old(at))
      ensures w.source.replicas == old(w.source.replicas) ||
        (c.ScaleToZero? && w.source.replicas == old(w.source.replicas)[c.wl := 0])
      ensures ok && c.ScaleToZero? ==> w.source.replicas == old(w.source.replicas)[c.wl := 0]
    {
      var sent: bool := *;
      if sent {
        OnlySaveSaves(w, c, address);
        OnlyScalingScales(w, c, address);
        Happened(Sends(c));
      }
      Drift();
      ok := *;
      ok := ok && sent;
    }

    /** The state file, written once the step has come back. */
    method SaveDone(noted: int) returns (ok: bool)
      requires Valid() && at.Busy? && Sendable(w, at, Save(at.step, noted), address)
      modifies `w, `at, `seen
      ensures Valid() && old(seen) <= seen && w.saved.mode == old(w.saved.mode)
      ensures w.saved.done == old(w.saved.done) + if ok then {old(at).step} else {}
      ensures at == if ok then Idle else old(at)
    {
      ok := *;
      if ok { Happened(Sends(Save(at.step, noted))); }
    }

    method MuteAct(c: Command) returns (ok: bool)
      requires Valid() && at.Busy? && at.step.Mute? && MuteOrder(at.last, c) && !c.Save?
      requires c.ReadImages? ==> w.source.k3sActive
      modifies `w, `at, `seen
      ensures Valid() && old(seen) <= seen && w.saved == old(w.saved) && SameAttempt(old(at), at)
      ensures ok ==> at.last == Some(c)
    {
      ok := Act(c);
    }

    method WriteMute() returns (ok: bool)
      requires Valid() && at.Busy? && at.step.Mute? && at.last.None?
      modifies `w, `at, `seen
      ensures Valid() && old(seen) <= seen && w.saved == old(w.saved) && SameAttempt(old(at), at)
      ensures ok ==> at.last == Some(WriteMuteUnit)
    {
      ok := w.source.k3sActive;
      if !ok { return; }
      ok := MuteAct(ReadImages);
      if !ok { return; }
      ok := MuteAct(WriteMuteFile);
      if !ok { return; }
      ok := MuteAct(WriteMuteUnit);
    }

    /** The new server sends nothing out, from now and after a reboot. */
    method MuteTarget() returns (ok: bool)
      requires Valid() && at.Busy? && at.step.Mute? && at.last.None?
      modifies `w, `at, `seen
      ensures Valid() && old(seen) <= seen && w.saved == old(w.saved) && SameAttempt(old(at), at)
      ensures ok ==> at.last == Some(LoadTable) && Muted(w.target)
    {
      ok := WriteMute();
      if !ok { return; }
      ok := MuteAct(DropTable);
      if !ok { return; }
      ok := MuteAct(EnableMute);
      if !ok { return; }
      ok := MuteAct(LoadTable);
      Now();
    }

    method InstallK3s() returns (ok: bool)
      requires Valid() && at.Busy? && at.step.Install? && at.last.None?
      modifies `w, `at, `seen
      ensures Valid() && old(seen) <= seen && w.saved == old(w.saved) && SameAttempt(old(at), at)
      ensures ok ==> at.last == Some(StartK3s)
    {
      ok := Act(StartK3s);
    }

    function Named(ns: string): set<Workload>
      reads this
    {
      set wl | wl in w.source.replicas && wl.ns == ns
    }

    /** The remote loop of `stop` over one namespace: a listing that fails is an empty one, a
        workload whose annotation or scale fails is passed over, and the loop ends as its last
        turn did. So it promises of no workload that it is at zero. */
    method ScaleLoop(ns: string) returns (ok: bool)
      requires Valid() && at.Busy? && at.step.Stop? && Scaling(at.last) && ns in NAMESPACES
      modifies `w, `at, `seen
      ensures Valid() && old(seen) <= seen && w.saved == old(w.saved)
      ensures SameAttempt(old(at), at) && Scaling(at.last)
      ensures Lower(old(w.source.replicas), w.source.replicas, set wl | wl in old(Named(ns)) && wl.name !in STORES)
    {
      ghost var targets := set wl | wl in Named(ns) && wl.name !in STORES;
      var listed: bool := *;
      var todo := if listed && w.source.k3sActive then Named(ns) else {};
      ok := true;
      while todo != {}
        invariant Valid() && old(seen) <= seen && w.saved == old(w.saved)
        invariant SameAttempt(old(at), at) && Scaling(at.last)
        invariant todo <= old(Named(ns)) && Lower(old(w.source.replicas), w.source.replicas, targets)
        decreases todo
      {
        ghost var some := Sets.Inhabitant(todo);
        var t :| t in todo;
        todo := todo - {t};
        if t.name in STORES {
          ok := true;
        } else {
          var annotated: bool := *;
          ok := annotated && w.source.k3sActive;
          if ok { ok := Act(ScaleToZero(t)); }
        }
      }
    }

    /** `kubectl scale --all` of one namespace: it fails unless each of its workloads is at zero. */
    method ScaleAll(ns: string) returns (ok: bool)
      requires Valid() && at.Busy? && at.step.Fence? && Scaling(at.last) && ns in NAMESPACES
      modifies `w, `at, `seen
      ensures Valid() && old(seen) <= seen && w.saved == old(w.saved)
      ensures SameAttempt(old(at), at) && Scaling(at.last)
      ensures Lower(old(w.source.replicas), w.source.replicas, old(Named(ns)))
      ensures ok ==> forall wl :: wl in old(Named(ns)) ==> w.source.replicas[wl] == 0
    {
      var todo := Named(ns);
      ok := true;
      while todo != {}
        invariant Valid() && old(seen) <= seen && w.saved == old(w.saved)
        invariant SameAttempt(old(at), at) && Scaling(at.last)
        invariant todo <= old(Named(ns)) && Lower(old(w.source.replicas), w.source.replicas, old(Named(ns)))
        invariant forall wl :: wl in old(Named(ns)) && wl !in todo ==> w.source.replicas[wl] == 0
        decreases todo
      {
        ghost var some := Sets.Inhabitant(todo);
        var t :| t in todo;
        ok := w.source.k3sActive;
        if ok { ok := Act(ScaleToZero(t)); }
        if !ok { return; }
        todo := todo - {t};
      }
    }

    /** Waits, until its deadline, for the last pod that is not kept; refuses if one is left. */
    method AwaitQuiet(keep: set<string>) returns (ok: bool)
      requires Valid() && at.Busy? && Comes(w.saved.mode, at.step, at.last, Poll(keep))
      modifies `w, `at, `seen
      ensures Valid() && old(seen) <= seen && w.saved == old(w.saved) && SameAttempt(old(at), at)
      ensures w.source.replicas == old(w.source.replicas)
      ensures ok ==> at.last == Some(Poll(keep))
    {
      var deadline: nat := *;
      ok := w.source.k3sActive;
      if !ok { return; }
      var left := WritersLeft(w.source.pods, keep);
      while left != [] && deadline > 0
        invariant Valid() && old(seen) <= seen && w.saved == old(w.saved) && at == old(at)
        invariant w.source.replicas == old(w.source.replicas) && w.source.k3sActive
        invariant left == [] <==> forall p :: p in w.source.pods ==> !Listed(p, keep)
        decreases deadline
      {
        Drift();
        ok := w.source.k3sActive;
        if !ok { return; }
        left := WritersLeft(w.source.pods, keep);
        deadline := deadline - 1;
      }
      ok := left == [];
      if ok { ok := Act(Poll(keep)); }
    }

    /** The old cluster's workloads but the stores to zero, its bundle timers off, checked at zero. A
        stop that comes back has no writer left only if each workload really was scaled. */
    method StopOld() returns (ok: bool, stopAt: int)
      requires Valid() && at.Busy? && at.step.Stop? && at.last.None?
      modifies `w, `at, `seen
      ensures Valid() && old(seen) <= seen && w.saved == old(w.saved) && SameAttempt(old(at), at)
      ensures ok ==> at.last == Some(Poll(STORES)) && stopAt == w.source.clock && TimersOff(w.source)
      ensures ok && Scaled(w.source.replicas, STORES) ==> Stopped(w.source)
    {
      stopAt := 0;
      ok := ScaleLoop("txnet");
      if !ok { return; }
      ok := ScaleLoop("txnet-monitoring");
      if !ok { return; }
      ok := Act(StopTimers);
      if !ok { return; }
      ok := AwaitQuiet(STORES);
      if !ok { return; }
      stopAt := w.source.clock;
      Now();
    }

    /** `backup.py now` on the old server: begun in this second, its data read, its name last. */
    method MakeBundle() returns (ok: bool, begun: int)
      requires Valid() && w.saved.mode.Move? && at.Busy? && at.step.Bundle? && at.last == Some(Poll(STORES))
      modifies `w, `at, `seen
      ensures Valid() && old(seen) <= seen && w.saved == old(w.saved) && SameAttempt(old(at), at)
      ensures ok ==> at.last == Some(NowPublishes(begun))
      ensures ok && w.halted ==> FreshSince(w.source, begun) && NotBeforeStop(w, begun)
    {
      begun := w.source.clock;
      ok := w.source.making.NotMaking?;  // else another run holds the lock
      if !ok { return; }
      ok := Act(NowBegins(begun));
      if !ok { return; }
      ok := w.source.making == Begun(begun) && w.source.k3sActive;
      if !ok { return; }
      ok := Act(NowReads(begun));
      if !ok { return; }
      ok := w.source.making.HasRead? && w.source.making.at == begun;
      if !ok { return; }
      ok := Act(NowPublishes(begun));
      Now();
    }

    /** newest_bundle: the greatest name. */
    method NewestBundle() returns (ok: bool, name: int)
      requires Valid()
      ensures ok <==> w.source.bundles != map[]
      ensures ok ==> name in w.source.bundles && forall c :: c in w.source.bundles ==> c <= name
    {
      name := 0;
      ok := false;
      var names := w.source.bundles.Keys;
      while names != {}
        invariant names <= w.source.bundles.Keys
        invariant ok ==> name in w.source.bundles && forall c :: c in w.source.bundles && c !in names ==> c <= name
        invariant !ok ==> names == w.source.bundles.Keys
        decreases names
      {
        ghost var some := Sets.Inhabitant(names);
        var c :| c in names;
        if !ok || name < c { name := c; }
        ok := true;
        names := names - {c};
      }
    }

    /** On the old server checked at zero, a fresh bundle. */
    method FreshBundle() returns (ok: bool)
      requires Valid() && w.saved.mode.Move? && at.Busy? && at.step.Bundle? && at.last.None?
      modifies `w, `at, `seen
      ensures Valid() && old(seen) <= seen && w.saved == old(w.saved) && SameAttempt(old(at), at)
      ensures ok ==> at.last.Some? && at.last.value.NowPublishes?
    {
      ok := w.source.k3sActive;
      if !ok { return; }
      var left := WritersLeft(w.source.pods, STORES);
      ok := left == [];
      if !ok { return; }
      ok := Act(Poll(STORES));
      if !ok { return; }
      var begun;
      ok, begun := MakeBundle();
    }

    /** The newest bundle, in a move a fresh one and refused if older than the stop, to the new
        server: what it carries there holds every write, or the stop or the clock broke it. */
    method CarryBundle() returns (ok: bool, name: int)
      requires Valid() && at.Busy? && at.step.Bundle? && at.last.None?
      modifies `w, `at, `seen
      ensures Valid() && old(seen) <= seen && w.saved == old(w.saved) && SameAttempt(old(at), at)
      ensures ok ==> at.last.Some? && at.last.value.Push? && at.last.value.name == name
      ensures ok && w.saved.mode.Move? && name in w.target.staged ==> Whole(w, w.target.staged[name], name)
    {
      ok, name := true, 0;
      if w.saved.mode.Move? {
        ok := FreshBundle();
        if !ok { return; }
      }
      ok, name := NewestBundle();
      if !ok { return; }
      ok := w.saved.mode.Move? ==> !Stale(name, w.saved.stopAt);
      if !ok { return; }
      ok := PushListed(name);
      Now();
    }

    method PushListed(name: int) returns (ok: bool)
      requires Valid() && at.Busy? && at.step.Bundle? && Comes(w.saved.mode, at.step, at.last, List(name))
      requires Answers(w, List(name), address)
      modifies `w, `at, `seen
      ensures Valid() && old(seen) <= seen && w.saved == old(w.saved) && SameAttempt(old(at), at)
      ensures ok ==> at.last.Some? && at.last.value.Push? && at.last.value.name == name
    {
      ok := Act(List(name));
      if !ok { return; }
      ok := name in w.source.bundles;
      if !ok { return; }
      ok := Act(Push(name, w.source.bundles[name]));
    }

    method RestoreAct(c: Command) returns (ok: bool)
      requires Valid() && at.Busy? && at.step.Restore? && RestoreOrder(at.last, c) && !c.Save?
      requires Answers(w, c, address)
      modifies `w, `at, `seen
      ensures Valid() && old(seen) <= seen && w.saved == old(w.saved) && SameAttempt(old(at), at)
      ensures at.last == Some(c) || (!ok && at.last == old(at.last))
    {
      ok := Act(c);
    }

    method RestoreBundle() returns (ok: bool)
      requires Valid() && at.Busy? && at.step.Restore? && at.last.None?
      modifies `w, `at, `seen
      ensures Valid() && old(seen) <= seen && w.saved == old(w.saved) && SameAttempt(old(at), at)
      ensures at.last.None? || at.last.value.RestoreBegins? || at.last.value.RestoreEnds?
      ensures ok ==> at.last.Some? && at.last.value.RestoreEnds?
    {
      ok := w.saved.bundle in w.target.staged;
      if !ok { return; }
      ok := RestoreAct(RestoreBegins);
      if !ok { return; }
      ok := w.saved.bundle in w.target.staged;
      if !ok { return; }
      ok := RestoreAct(RestoreEnds(w.target.staged[w.saved.bundle]));
    }

    /** B10's restore over the seeded data; it starts no timer. While it runs, the data is neither
        what it was nor the bundle's. Whether it succeeded or failed, it then clears what was staged,
        and looks at neither: `cleared` when that came back. */
    method RestoreData() returns (ok: bool, cleared: bool)
      requires Valid() && at.Busy? && at.step.Restore? && at.last.None?
      modifies `w, `at, `seen
      ensures Valid() && old(seen) <= seen && w.saved == old(w.saved) && SameAttempt(old(at), at)
      ensures ok ==> RestoreOrder(at.last, Save(Restore, 0))
      ensures ok && w.saved.mode.Move? ==>
        w.target.restored.Some? && Whole(w, w.target.restored.value, w.saved.bundle)
      ensures cleared ==> w.target.staged == map[]
    {
      ok := RestoreBundle();
      cleared := false;
      var gone: bool := *;
      if gone {
        ok := false;
        return;
      }
      var ended := at.last.Some? && at.last.value.RestoreEnds?;
      cleared := RestoreAct(ClearStaged(ended));
      if at.last.Some? { RestoredNow(); }
    }

    method FenceAct(c: Command) returns (ok: bool)
      requires Valid() && at.Busy? && at.step.Fence? && FenceOrder(at.last, c)
      requires Answers(w, c, address) && !c.ScaleToZero? && !c.Save?
      modifies `w, `at, `seen
      ensures Valid() && old(seen) <= seen && w.saved == old(w.saved) && SameAttempt(old(at), at)
      ensures ok ==> at.last == Some(c)
    {
      ok := Act(c);
    }

    /** The stores to zero, the marker, k3s stopped and disabled, all read back. */
    method FenceOld() returns (ok: bool)
      requires Valid() && at.Busy? && at.step.Fence? && at.last.None?
      modifies `w, `at, `seen
      ensures Valid() && old(seen) <= seen && w.saved == old(w.saved) && SameAttempt(old(at), at)
      ensures ok ==> at.last == Some(ReadFence) && Down(w.source)
    {
      ok := ScaleAllDown();
      if !ok { return; }
      ok := AwaitQuiet({});
      if !ok { return; }
      ok := StopK3s();
      if !ok || NotFenced(w.source, address) { ok := false; return; }
      ok := FenceAct(ReadFence);
      if ok { FencedNow(); }
    }

    /** The marker, then `systemctl disable --now`, which may be lost between the two. */
    method StopK3s() returns (ok: bool)
      requires Valid() && at.Busy? && at.step.Fence? && at.last == Some(Poll({}))
      modifies `w, `at, `seen
      ensures Valid() && old(seen) <= seen && w.saved == old(w.saved) && SameAttempt(old(at), at)
      ensures ok ==> at.last == Some(DisableAndStopK3s)
    {
      ok := FenceAct(WriteMarker);
      if !ok { return; }
      var lost: bool := *;
      if lost {
        ok := FenceAct(DisableK3s);
        ok := false;
      } else {
        ok := FenceAct(DisableAndStopK3s);
      }
    }

    method ScaleAllDown() returns (ok: bool)
      requires Valid() && at.Busy? && at.step.Fence? && at.last.None?
      modifies `w, `at, `seen
      ensures Valid() && old(seen) <= seen && w.saved == old(w.saved) && SameAttempt(old(at), at)
      ensures ok ==> at.last == Some(ScaledAll)
    {
      ok := ScaleAll("txnet");
      if !ok { return; }
      ok := ScaleAll("txnet-monitoring");
      if !ok { return; }
      ok := FenceAct(ScaledAll);
    }

    /** Only with the old server fenced, read again now: the new one unmuted, its timers on. */
    method OpenNew() returns (ok: bool)
      requires Valid() && at.Busy? && at.step.Open? && at.last.None?
      modifies `w, `at, `seen
      ensures Valid() && old(seen) <= seen && w.saved == old(w.saved) && SameAttempt(old(at), at)
      ensures ok ==> at.last == Some(StartTimers) && Closed(w, address)
    {
      ok := !NotFenced(w.source, address);
      if !ok { return; }
      ok := OpenAct(ReadEvidence);
      if !ok || !w.target.muteUnit { ok := false; return; }
      ok := Unmute();
      if !ok || w.target.muteLoaded { ok := false; return; }
      ok := OpenAct(StartTimers);
      if ok { ClosedNow(); }
    }

    method OpenAct(c: Command) returns (ok: bool)
      requires Valid() && at.Busy? && at.step.Open? && OpenOrder(at.last, c) && !c.Save?
      requires Answers(w, c, address)
      modifies `w, `at, `seen
      ensures Valid() && old(seen) <= seen && w.saved == old(w.saved) && SameAttempt(old(at), at)
      ensures ok ==> at.last == Some(c)
    {
      ok := Act(c);
    }

    method Unmute() returns (ok: bool)
      requires Valid() && at.Busy? && at.step.Open? && at.last == Some(ReadEvidence) && w.target.muteUnit
      modifies `w, `at, `seen
      ensures Valid() && old(seen) <= seen && w.saved == old(w.saved) && SameAttempt(old(at), at)
      ensures ok ==> at.last == Some(RemoveFile)
    {
      ok := StopMuting();
      if !ok { return; }
      ok := OpenAct(RemoveUnit);
      if !ok { return; }
      ok := OpenAct(RemoveFile);
    }

    // `systemctl disable --now`
    method StopMuting() returns (ok: bool)
      requires Valid() && at.Busy? && at.step.Open? && at.last == Some(ReadEvidence) && w.target.muteUnit
      modifies `w, `at, `seen
      ensures Valid() && old(seen) <= seen && w.saved == old(w.saved) && SameAttempt(old(at), at)
      ensures ok ==> at.last == Some(StopMute)
    {
      ok := OpenAct(DisableMute);
      if !ok { return; }
      ok := OpenAct(StopMute);
    }

    method PointAct(c: Command) returns (ok: bool)
      requires Valid() && at.Busy? && at.step.Repoint? && RepointOrder(at.last, c) && !c.Save?
      requires Answers(w, c, address)
      modifies `w, `at, `seen
      ensures Valid() && old(seen) <= seen && w.saved == old(w.saved) && SameAttempt(old(at), at)
      ensures ok ==> at.last == Some(c)
    {
      ok := Act(c);
    }

    /** Cloudflare's records, which must be on the old address still, then Arvan's. */
    method RepointEdges() returns (ok: bool)
      requires Valid() && at.Busy? && at.step.Repoint? && at.last.None?
      modifies `w, `at, `seen
      ensures Valid() && old(seen) <= seen && w.saved == old(w.saved) && SameAttempt(old(at), at)
      ensures ok ==> at.last == Some(PointDomestic) && w.edgeAtNew && w.domesticAtNew
    {
      ok := !w.edgeAtNew;
      if !ok { return; }
      ok := PointAct(PointEdge);
      if !ok { return; }
      ok := PointAct(PointDomestic);
      if ok { PointedNow(); }
    }

    /** Clocks, production's checkout, the room; or the deployment of an empty cluster: any of it
        may refuse. */
    method CheckServers() returns (ok: bool)
      requires Valid() && at.Busy? && (at.step.Check? || at.step.Deploy?) && at.last.None?
      modifies `w, `at, `seen
      ensures Valid() && old(seen) <= seen && w.saved == old(w.saved) && at == old(at)
    {
      Drift();
      ok := *;
    }

    /** What the step does; with `ok`, all that its last command, the saved state, needs. */
    method Perform() returns (ok: bool, noted: int)
      requires Valid() && at.Busy? && at.last.None?
      modifies `w, `at, `seen
      ensures Valid() && old(seen) <= seen && w.saved == old(w.saved) && SameAttempt(old(at), at)
      ensures ok ==> Sendable(w, at, Save(at.step, noted), address)
    {
      noted := 0;
      match at.step {
        case Check => ok := CheckServers();
        case Mute => ok := MuteTarget();
        case Install => ok := InstallK3s();
        case Deploy => ok := CheckServers();
        case Stop => ok, noted := StopOld();
        case Bundle => ok, noted := CarryBundle();
        case Restore => var cleared; ok, cleared := RestoreData();
        case Fence => ok := FenceOld();
        case Open => ok := OpenNew();
        case Repoint => ok := RepointEdges();
      }
    }

    /** run_step: refused out of order; the state file is written only after the step. */
    method RunStep(step: Step) returns (ok: bool)
      requires Valid() && at.Idle? && step !in w.saved.done
      modifies this
      ensures Valid() && old(seen) <= seen && at.Idle?
      ensures w.saved.mode == old(w.saved.mode)
      ensures w.saved.done == old(w.saved.done) + if ok then {step} else {}
      ensures old(OutOfOrder(w.saved, step)) ==> !ok && seen == old(seen)
      ensures attempts == old(attempts) + if old(OutOfOrder(w.saved, step)) then [] else [step]
    {
      ok := !OutOfOrder(w.saved, step);
      if !ok { return; }
      Begin(step);
      var noted;
      ok, noted := Perform();
      if ok { ok := SaveDone(noted); }
      if !ok { Happened(Ends); }
    }

    /** A step, the owner asked first where the mode says so; false when it was refused or not
        approved. */
    method AskAndRun(step: Step, typed: Step -> string) returns (ok: bool)
      requires Valid() && at.Idle? && step !in w.saved.done
      modifies this
      ensures Valid() && old(seen) <= seen && at.Idle? && w.saved.mode == old(w.saved.mode)
      ensures w.saved.done == old(w.saved.done) + if ok then {step} else {}
      ensures attempts == old(attempts) ||
        (attempts == old(attempts) + [step] && (AskBefore(w.saved.mode, step) ==> typed(step) == "yes"))
    {
      if AskBefore(w.saved.mode, step) && typed(step) != "yes" {
        return false;
      }
      ok := RunStep(step);
    }

    /** Each pending step in order: 0 when all ran. `typed`: what the owner types when asked, its ends
        stripped. */
    method RunAll(typed: Step -> string) returns (code: int)
      requires Valid() && at.Idle?
      modifies this
      ensures Valid() && old(seen) <= seen && at.Idle?
      ensures w.saved.mode == old(w.saved.mode) && old(w.saved.done) <= w.saved.done
      ensures code == 0 <==> Pending(w.saved) == []
      ensures old(attempts) <= attempts && Approved(attempts, |old(attempts)|, w.saved.mode, typed)
    {
      var todo := Pending(w.saved);
      for i := 0 to |todo|
        invariant Valid() && old(seen) <= seen && at.Idle?
        invariant w.saved.mode == old(w.saved.mode) && old(w.saved.done) <= w.saved.done
        invariant Pending(w.saved) == todo[i..]
        invariant old(attempts) <= attempts && Approved(attempts, |old(attempts)|, w.saved.mode, typed)
      {
        ghost var before, were := w.saved, attempts;
        NextPending(before);
        var ok := AskAndRun(todo[i], typed);
        ApprovedOn(were, attempts, |old(attempts)|, before.mode, typed, todo[i]);
        PendingThen(before, w.saved, ok);
        if !ok {
          return 1;
        }
      }
      return 0;
    }

    // A command's step is one an attempt was begun at.
    ghost predicate OfAttempts()
      reads this
    {
      forall i :: 0 <= i < |seen| && seen[i].s.at.Busy? ==> seen[i].s.at.step in attempts
    }

    lemma AllOfAttempts()
      requires Valid()
      ensures OfAttempts()
    {
      forall i | 0 <= i < |seen| && seen[i].s.at.Busy? ensures seen[i].s.at.step in attempts {
        MomentsAreOfAttempts(seen, address, i);
      }
    }

    /** `run` again and again with the same servers, as long as it continues, whatever became of the
        driver each time: every state of all of it has one writer, an open new server lost nothing if
        the stop scaled every workload and the old clock kept going, and no command of a step the
        mode asks for is sent but in a run whose owner typed the word. */
    method RunAgain(times: nat, typed: (nat, Step) -> string)
      requires Valid() && at.Idle?
      modifies this
      ensures Valid() && old(seen) <= seen && at.Idle? && w.saved.mode == old(w.saved.mode)
      ensures forall i :: 0 <= i < |seen| ==> OneWriter(seen[i].s.w)
      ensures forall i :: 0 <= i < |seen| ==> ServesAll(seen[i].s.w)
      ensures OfAttempts() && old(attempts) <= attempts
      ensures AllAsked(attempts[|old(attempts)|..], w.saved.mode, typed, times)
    {
      var i := 0;
      while i < times && Continues(w.saved, w.saved.mode)
        invariant Valid() && old(seen) <= seen && at.Idle? && w.saved.mode == old(w.saved.mode) && i <= times
        invariant old(attempts) <= attempts
        invariant AllAsked(attempts[|old(attempts)|..], w.saved.mode, typed, i)
      {
        ghost var were := attempts;
        var code := RunAll(step => typed(i, step));
        AskedOn(were, attempts, |old(attempts)|, w.saved.mode, typed, i);
        i := i + 1;
      }
      forall j | 0 <= j < |seen| ensures OneWriter(seen[j].s.w) && ServesAll(seen[j].s.w) {
        EveryMomentHasOneWriter(seen, address, j);
        ServesAllThen(seen, address, j);
      }
      AllOfAttempts();
    }
  }

  /** Of the steps from this one on, each that is asked for has the owner's word. */
  predicate Approved(steps: seq<Step>, from: nat, mode: Mode, typed: Step -> string) {
    from < |steps| ==>
      var n := |steps| - 1;
      Approved(steps[..n], from, mode, typed) && (AskBefore(mode, steps[n]) ==> typed(steps[n]) == "yes")
  }

  lemma ApprovedOn(steps: seq<Step>, more: seq<Step>, from: nat, mode: Mode, typed: Step -> string, step: Step)
    requires Approved(steps, from, mode, typed) && from <= |steps|
    requires more == steps || (more == steps + [step] && (AskBefore(mode, step) ==> typed(step) == "yes"))
    ensures Approved(more, from, mode, typed) && steps <= more
  {
    if more != steps { assert more[..|steps|] == steps; }
  }

  lemma {:induction false} ApprovedAt(steps: seq<Step>, from: nat, mode: Mode, typed: Step -> string, step: Step)
    requires Approved(steps, from, mode, typed) && from <= |steps| && step in steps[from..] && AskBefore(mode, step)
    ensures typed(step) == "yes"
  {
    var front := steps[..|steps| - 1];
    if step != steps[|steps| - 1] {
      assert step in front[from..];
      ApprovedAt(front, from, mode, typed, step);
    }
  }

  /** In one of the first so many runs the owner, asked for this step, typed the word. */
  ghost predicate Asked(typed: (nat, Step) -> string, runs: nat, step: Step) {
    exists run: nat :: run < runs && typed(run, step) == "yes"
  }

  ghost predicate AllAsked(steps: seq<Step>, mode: Mode, typed: (nat, Step) -> string, runs: nat) {
    forall step :: step in steps && AskBefore(mode, step) ==> Asked(typed, runs, step)
  }

  lemma AskedOn(were: seq<Step>, now: seq<Step>, from: nat, mode: Mode, typed: (nat, Step) -> string, run: nat)
    requires from <= |were| && were <= now && AllAsked(were[from..], mode, typed, run)
    requires Approved(now, |were|, mode, step => typed(run, step))
    ensures AllAsked(now[from..], mode, typed, run + 1)
  {
    forall step | step in now[from..] && AskBefore(mode, step) ensures Asked(typed, run + 1, step) {
      if step in were[from..] {
        assert Asked(typed, run, step);
      } else {
        assert now[from..] == were[from..] + now[|were|..];
        ApprovedAt(now, |were|, mode, s => typed(run, s), step);
      }
    }
  }

  lemma {:induction false} MomentsAreOfAttempts(seen: seq<Moment>, address: string, i: nat)
    requires Chain(seen, true, address) && seen[0].s.at.Idle? && i < |seen| && seen[i].s.at.Busy?
    ensures seen[i].s.at.step in Attempts(seen)
    decreases |seen|
  {
    if i == |seen| - 1 {
      CommandsAreOfAttempts(seen, true, address);
    } else {
      MomentsAreOfAttempts(seen[..|seen| - 1], address, i);
    }
  }

  /** If the move has come to `open`, the new server's data holds every write. */
  predicate ServesAll(w: World) {
    Open in w.saved.done && w.halted && !w.steppedBack ==> w.target.restored == Some(w.source.log)
  }

  lemma ServesAllThen(seen: seq<Moment>, address: string, i: nat)
    requires Legal(seen, address) && i < |seen|
    ensures ServesAll(seen[i].s.w)
  {
    if Open in seen[i].s.w.saved.done { NothingIsLost(seen, address, i); }
  }

  lemma PointedAlong(w: World, at: Attempt)
    requires Progress(w, at) && at.Busy? && at.step.Repoint? && at.last == Some(PointDomestic)
    ensures w.edgeAtNew && w.domesticAtNew
  {
  }

  lemma OnlyScalingScales(w: World, c: Command, address: string)
    ensures Sent(w, c, address).source.replicas ==
      if c.ScaleToZero? then w.source.replicas[c.wl := 0] else w.source.replicas
  {
  }

  lemma NextPending(s: Saved)
    requires Pending(s) != []
    ensures Pending(s)[0] in Steps(s.mode) && Pending(s)[0] !in s.done
  {
    assert Pending(s)[0] in Pending(s);
  }

  lemma PendingThen(s: Saved, s': Saved, ok: bool)
    requires Pending(s) != [] && s'.mode == s.mode && s'.done == s.done + if ok then {Pending(s)[0]} else {}
    ensures Pending(s') == if ok then Pending(s)[1..] else Pending(s)
    ensures s.done <= s'.done
  {
    if !ok { assert s'.done == s.done; }
    NextPending(s);
    StepsByRank(s.mode, Pending(s)[0]);
    InOrderIsFirstPending(s, Pending(s)[0]);
  }
}

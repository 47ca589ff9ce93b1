/** Stopping and starting a cluster around a restore that may be cut off after any kubectl command
    (scripts/bundle/bundle_k8s.py, scripts/bundle/bundle_restore.py), and the move's own stop
    (scripts/move/cluster_move.py). */
module ReplicaRestore {
  import opened Wrappers

  // A deployment or statefulset: its replicas, and the count noted before a restore.
  datatype Load = Load(replicas: nat, note: Option<nat>)

  /** parse_replicas: the note, or what runs. */
  function Before(l: Load): nat { if l.note.Some? then l.note.value else l.replicas }

  // It still knows its count: noted, or running it unannotated.
  predicate Knows(l: Load, count: nat) { l.note == Some(count) || l == Load(count, None) }

  const DATA: set<string> := {"statefulset/main-db", "statefulset/memory-data", "statefulset/rabbitmq"}
  const MAIN_DB := "statefulset/main-db"

  function Max(a: nat, b: nat): nat { if a < b then b else a }

  // What _scale_up gives a target, for what the process remembers.
  function Wanted(workloads: map<string, nat>, target: string): nat {
    Max(if target in workloads then workloads[target] else 1, 1)
  }

  class Stack {
    const original: map<string, nat>      // the counts before the first restore
    var live: map<string, Load>           // the cluster
    var workloads: map<string, nat>       // what this process read of it

    constructor (counts: map<string, nat>)
      requires forall t :: t in counts && t in DATA ==> counts[t] == 1
      ensures original == counts && live == map t | t in counts :: Load(counts[t], None)
      ensures Kept() && workloads == map[]
    {
      original := counts;
      live := map t | t in counts :: Load(counts[t], None);
      workloads := map[];
    }

    ghost predicate Kept()
      reads this
    {
      && live.Keys == original.Keys
      && (forall t :: t in original ==> Knows(live[t], original[t]))
      && (forall t :: t in original && t in DATA ==> original[t] == 1)
    }

    // kubectl annotate, annotate target-, scale: each may be the last before a crash, and fails on
    // a target that is not there.
    method Annotate(target: string, note: Option<nat>) returns (ok: bool)
      modifies this`live
      ensures ok ==> target in old(live) && live == old(live)[target := old(live)[target].(note := note)]
      ensures !ok ==> live == old(live)
    {
      ok := *;
      ok := ok && target in live;
      if ok {
        live := live[target := live[target].(note := note)];
      }
    }

    method Scale(target: string, replicas: nat) returns (ok: bool)
      modifies this`live
      ensures ok ==> target in old(live) && live == old(live)[target := old(live)[target].(replicas := replicas)]
      ensures !ok ==> live == old(live)
    {
      ok := *;
      ok := ok && target in live;
      if ok {
        live := live[target := live[target].(replicas := replicas)];
      }
    }

    /** stop_all: every workload to zero, its replicas noted first. */
    method StopAll() returns (ok: bool)
      requires Kept()
      modifies this`live, this`workloads
      ensures Kept() && workloads == original
      ensures ok ==> forall t :: t in live ==> live[t] == Load(0, Some(original[t]))
    {
      workloads := map t | t in live :: Before(live[t]);
      assert workloads == original;
      var todo := workloads.Keys;
      while todo != {}
        invariant todo <= original.Keys && Kept() && workloads == original
        invariant forall t :: t in original && t !in todo ==> live[t] == Load(0, Some(original[t]))
        decreases |todo|
      {
        var target :| target in todo;
        ok := StopOne(target);
        if !ok { return; }
        todo := todo - {target};
      }
      ok := *;    // the pods may not be gone in time
    }

    method StopOne(target: string) returns (ok: bool)
      requires Kept() && workloads == original && target in original
      modifies this`live
      ensures Kept() && forall t :: t in live && t != target ==> live[t] == old(live)[t]
      ensures ok ==> live[target] == Load(0, Some(original[target]))
    {
      ok := Annotate(target, Some(workloads[target]));
      if !ok { return; }
      ok := Scale(target, 0);
    }

    /** _scale_up: all scaled, then each waited for and its note taken away. */
    method ScaleUp(targets: set<string>) returns (ok: bool)
      requires Kept()
      requires forall t :: t in targets && t in original ==> Wanted(workloads, t) == original[t]
      modifies this`live
      ensures Kept()
      ensures forall t :: t in live && t !in targets ==> live[t] == old(live)[t]
      ensures ok ==> targets <= original.Keys && forall t :: t in targets ==> live[t] == Load(original[t], None)
    {
      ok := ScaleEach(targets);
      if ok {
        ok := UnnoteEach(targets);
      }
    }

    method ScaleEach(targets: set<string>) returns (ok: bool)
      requires Kept()
      requires forall t :: t in targets && t in original ==> Wanted(workloads, t) == original[t]
      modifies this`live
      ensures Kept()
      ensures forall t :: t in live && t !in targets ==> live[t] == old(live)[t]
      ensures ok ==> targets <= original.Keys && forall t :: t in targets ==> live[t].replicas == original[t]
    {
      var todo := targets;
      while todo != {}
        invariant todo <= targets && Kept()
        invariant forall t :: t in live && t !in targets ==> live[t] == old(live)[t]
        invariant forall t :: t in targets && t !in todo ==> t in original && live[t].replicas == original[t]
        decreases |todo|
      {
        var target :| target in todo;
        ok := Scale(target, Wanted(workloads, target));
        if !ok { return; }
        todo := todo - {target};
      }
      ok := true;
    }

    // Each rollout waited for, then the note taken away.
    method UnnoteEach(targets: set<string>) returns (ok: bool)
      requires Kept() && targets <= original.Keys
      requires forall t :: t in targets ==> live[t].replicas == original[t]
      modifies this`live
      ensures Kept()
      ensures forall t :: t in live && t !in targets ==> live[t] == old(live)[t]
      ensures ok ==> forall t :: t in targets ==> live[t] == Load(original[t], None)
    {
      var todo := targets;
      while todo != {}
        invariant todo <= targets && Kept()
        invariant forall t :: t in live && t !in targets ==> live[t] == old(live)[t]
        invariant forall t :: t in targets ==> live[t] == if t in todo then old(live)[t] else Load(original[t], None)
        decreases |todo|
      {
        var target :| target in todo;
        ok := *;    // rollout status; a workload left at zero is not waited for
        if !ok { return; }
        ok := Annotate(target, None);
        if !ok { return; }
        todo := todo - {target};
      }
      ok := true;
    }

    /** start_data: the stores, as many as this process remembers or else one. */
    method StartData() returns (ok: bool)
      requires Kept() && (workloads == map[] || workloads == original)
      modifies this`live
      ensures Kept()
      ensures forall t :: t in live && t !in DATA ==> live[t] == old(live)[t]
      ensures ok ==> forall t :: t in DATA ==> t in live && live[t] == Load(original[t], None)
    {
      ok := ScaleUp(DATA);
    }

    /** start_all: what ran before the restore runs again; what did not only loses its note. */
    method StartAll() returns (ok: bool)
      requires Kept() && workloads == original
      requires forall t :: t in live && original[t] == 0 ==> live[t].replicas == 0
      modifies this`live
      ensures Kept()
      ensures forall t :: t in live && t in DATA ==> live[t] == old(live)[t]
      ensures ok ==> forall t :: t in live && t !in DATA ==> live[t] == Load(original[t], None)
    {
      ok := ScaleUp(set t | t in workloads && workloads[t] > 0 && t !in DATA);
      if ok {
        ok := UnnoteEach(set t | t in workloads && workloads[t] == 0);
      }
    }

    /** restore, in a process of its own: the stores come up to be asked, everything stops, the stores
        are filled and started, then the rest. It may abort or be killed anywhere; a start of the
        rest that fails is only warned of, and the restore ends. */
    method Restore() returns (ended: bool, warned: bool)
      requires Kept()
      modifies this`live, this`workloads
      ensures Kept()
      ensures ended ==> forall t :: t in live && t in DATA ==> live[t] == Load(original[t], None)
      ensures ended && !warned ==> forall t :: t in live ==> live[t] == Load(original[t], None)
    {
      warned := false;
      workloads := map[];
      ended := MAIN_DB in live;
      if !ended { return; }
      if live[MAIN_DB].replicas == 0 {        // holds_data
        ended := StartData();
        if !ended { return; }
      }
      ended := *;
      if !ended { return; }                   // refused: data here, or another commit's code
      ended := StopAll();
      if !ended { return; }
      ended := *;
      if !ended { return; }                   // a volume or Redis refused
      ended := StartData();
      if !ended { return; }
      ended := *;
      if !ended { return; }                   // the databases or the scrub refused
      var started := StartAll();
      warned := !started;
      ended := *;                             // killed on the way, or not
    }

    /** Any number of restores, each cut off anywhere or ended with the warning: no count is ever
        forgotten, and one that ends without it gives all of them back. */
    method RestoreUntilDone(tries: nat) returns (done: bool)
      requires Kept()
      modifies this`live, this`workloads
      ensures Kept()
      ensures done ==> live == map t | t in original :: Load(original[t], None)
    {
      done := false;
      var i := 0;
      while i < tries && !done
        invariant i <= tries && Kept()
        invariant done ==> forall t :: t in live ==> live[t] == Load(original[t], None)
      {
        var ended, warned := Restore();
        done := ended && !warned;
        i := i + 1;
      }
    }
  }

  // --- One workload's commands ---------------------------------------------------

  datatype Command = Note(count: nat) | Unnote | To(replicas: nat)

  function Do(l: Load, commands: seq<Command>): Load {
    if commands == [] then l else
    var before, last := Do(l, commands[..|commands| - 1]), commands[|commands| - 1];
    match last
    case Note(n) => before.(note := Some(n))
    case Unnote => before.(note := None)
    case To(n) => before.(replicas := n)
  }

  // What stop_all does to it, reading it first.
  function Stop(l: Load): seq<Command> { [Note(Before(l)), To(0)] }

  // What start_data does to a store, for what the process remembers of it.
  function Start(remembered: Option<nat>): seq<Command> {
    [To(Max(if remembered.Some? then remembered.value else 1, 1)), Unnote]
  }

  lemma DoTwo(l: Load, a: Command, b: Command)
    ensures Do(l, [a, b]) == Do(Do(l, [a]), [b])
  {
    assert [a, b][..1] == [a] && [b][..0] == [] && [a][..0] == [];
  }

  // A restore killed after its stop, then one that finishes: the second process, having read
  // nothing yet, starts the store to ask it.
  function KilledThenFinished(l: Load): Load {
    var stopped := Do(l, Stop(l));
    var asked := if stopped.replicas == 0 then Do(stopped, Start(None)) else stopped;
    var again := Do(asked, Stop(asked));
    Do(again, Start(Some(Before(asked))))
  }

  /** A store keeps its count over a restore killed after the stop and run again exactly when that
      count is one. */
  lemma StoreKeepsItsCountIff(count: nat)
    ensures KilledThenFinished(Load(count, None)) == Load(count, None) <==> count == 1
  {
    var l := Load(count, None);
    DoTwo(l, Note(count), To(0));
    assert Do(l, [Note(count)]) == Load(count, Some(count)) by { assert [Note(count)][..0] == []; }
    var stopped := Load(0, Some(count));
    assert Do(l, Stop(l)) == stopped by { assert [To(0)][..0] == []; }
    StartStore(stopped, None);
    var asked := Load(1, None);
    assert Do(stopped, Start(None)) == asked;
    DoTwo(asked, Note(1), To(0));
    assert Do(asked, [Note(1)]) == Load(1, Some(1)) by { assert [Note(1)][..0] == []; }
    assert Do(Load(1, Some(1)), [To(0)]) == Load(0, Some(1)) by { assert [To(0)][..0] == []; }
    StartStore(Load(0, Some(1)), Some(1));
  }

  lemma StartStore(l: Load, remembered: Option<nat>)
    ensures Do(l, Start(remembered)) == Load(Max(if remembered.Some? then remembered.value else 1, 1), None)
  {
    var n := Max(if remembered.Some? then remembered.value else 1, 1);
    DoTwo(l, To(n), Unnote);
    assert [To(n)][..0] == [] && [Unnote][..0] == [];
  }

  /** The move's stop: the note is whatever runs now, over any earlier note. */
  function MoveStop(l: Load): Load { Load(0, Some(l.replicas)) }

  // The move's `stop` step run so many times.
  function MoveStops(l: Load, times: nat): Load {
    if times == 0 then l else MoveStop(MoveStops(l, times - 1))
  }

  /** Its note holds the count after a first stop, and after a second one only when that was zero. */
  lemma {:induction false} MoveForgetsWhenRunAgain(l: Load, times: nat)
    requires times > 0
    ensures MoveStops(l, times).note == Some(l.replicas) <==> times == 1 || l.replicas == 0
  {
    if times > 1 {
      assert MoveStops(l, times - 1).replicas == 0;
    } else {
      assert MoveStops(l, 0) == l;
    }
  }
}

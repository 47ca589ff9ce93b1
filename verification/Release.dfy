/** A release proved, approved and sent, each command free to fail at any step, and what the log of
    any run of them says (tools/release.py). */
module Release {
  import opened Wrappers

  const APPROVE_PREFIX := 12

  // The record file: what a passed twin or quick lane proved, and the owner's approval of it.
  datatype Record = Record(commit: string, production: string, approved: bool)

  function Prefix(commit: string): string { if |commit| <= APPROVE_PREFIX then commit else commit[..APPROVE_PREFIX] }

  /** proved_problem */
  predicate NotProved(record: Option<Record>, head: string) { record.None? || record.value.commit != head }

  /** approval_problem, of what was typed, stripped. */
  predicate NotApprovable(record: Option<Record>, head: string, typed: string, tty: bool) {
    NotProved(record, head) || !tty || typed != Prefix(head)
  }

  /** send_problem */
  predicate NotSendable(record: Option<Record>, head: string, production: string) {
    NotProved(record, head) || !record.value.approved || record.value.production != production
  }

  // --- The log -----------------------------------------------------------------

  // What stands behind a proof: a twin that went from a commit to the proved one, or no twin.
  datatype Lane = Twin(from: string) | Quick

  datatype Event =
    | Proved(commit: string, production: string, lane: Lane)
    | Approved(commit: string)
    | Spent                                     // the record removed
    | Deploying(commit: string, over: string)   // the deploy step begins
    | Completed(commit: string)

  predicate Between(log: seq<Event>, i: int, j: int, e: Event) { exists k :: i < k < j && 0 <= k < |log| && log[k] == e }

  // Neither proved anew nor spent between these two.
  predicate Standing(log: seq<Event>, i: int, j: int) {
    forall k :: i < k < j && 0 <= k < |log| ==> !log[k].Proved? && !log[k].Spent?
  }

  predicate IsProof(e: Event, commit: string, production: string) {
    e.Proved? && e.commit == commit && e.production == production
  }

  // This deploy is of a commit proved while production was at the commit it goes over, approved
  // after that, and nothing proved or spent since.
  predicate JustifiedBy(log: seq<Event>, i: int, p: int, a: int) {
    && 0 <= p < a < i < |log| && log[i].Deploying?
    && IsProof(log[p], log[i].commit, log[i].over) && log[a] == Approved(log[i].commit) && Standing(log, p, i)
  }

  ghost predicate Justified(log: seq<Event>, i: int) { exists p, a :: JustifiedBy(log, i, p, a) }

  // A completed send spent its record just before, and deployed since the record was last spent.
  predicate CompletedBy(log: seq<Event>, j: int, d: int) {
    && 0 <= d < j - 1 && j < |log| && log[j].Completed? && log[j - 1].Spent?
    && log[d].Deploying? && log[d].commit == log[j].commit && forall k :: d < k < j - 1 ==> !log[k].Spent?
  }

  ghost predicate LogHolds(log: seq<Event>) {
    && (forall i :: 0 <= i < |log| && log[i].Deploying? ==> Justified(log, i))
    && (forall j :: 0 <= j < |log| && log[j].Completed? ==> exists d :: CompletedBy(log, j, d))
  }

  // What the record claims is in the log, and still stands.
  predicate RecordedBy(log: seq<Event>, r: Record, p: int, a: int) {
    && 0 <= p < |log| && IsProof(log[p], r.commit, r.production) && Standing(log, p, |log|)
    && (r.approved ==> p < a < |log| && log[a] == Approved(r.commit))
  }

  ghost predicate Recorded(log: seq<Event>, record: Option<Record>) {
    record.Some? ==> exists p, a :: RecordedBy(log, record.value, p, a)
  }

  // --- Commands ----------------------------------------------------------------

  datatype State = State(record: Option<Record>, checkout: string, log: seq<Event>)

  datatype ProveStep = Clean | Checks | Reach | Disk | Build | TheTwin

  // What --from says, and the commit that names.
  datatype Ref = Ref(text: string, commit: string)

  // --until, --from and --full; `quick` when the reach measured takes the quick lane.
  datatype Options = Options(until: Option<ProveStep>, twinFrom: Option<Ref>, full: bool, quick: bool)

  datatype Command =
    | ToProve(head: string, ancestor: bool, o: Options)
    | ToApprove(head: string, typed: string, tty: bool)
    | ToSend(head: string)

  predicate HasFrom(o: Options) { o.twinFrom.Some? && o.twinFrom.value.text != "" }

  predicate StopsEarly(o: Options) { o.until.Some? && !o.until.value.TheTwin? }

  /** The lane, which --from and --full make the twin's; it starts at production's commit unless
      --from says otherwise. */
  function LaneOf(o: Options, production: string): Lane {
    if !o.full && !HasFrom(o) && o.quick then Quick else
    Twin(if HasFrom(o) then o.twinFrom.value.commit else production)
  }

  /** prove leaves all as it was, spends the record before a twin that fails, or proves. */
  predicate Proves(s: State, c: Command, t: State)
    requires c.ToProve?
  {
    || t == s
    || (c.ancestor && !StopsEarly(c.o) && t == s.(record := None, log := s.log + [Spent]))
    || (c.ancestor && !StopsEarly(c.o) && t == State(Some(Record(c.head, s.checkout, false)), s.checkout,
       s.log + [Spent, Proved(c.head, s.checkout, LaneOf(c.o, s.checkout))]))
  }

  predicate Approves(s: State, c: Command, t: State)
    requires c.ToApprove?
  {
    if NotApprovable(s.record, c.head, c.typed, c.tty) then t == s else
    t == s.(record := Some(s.record.value.(approved := true)), log := s.log + [Approved(c.head)])
  }

  /** send leaves all as it was when refused; else it may fail before the ship, after it, after the
      deploy began, or once the record is spent. */
  predicate Sends(s: State, head: string, t: State) {
    var deployed := s.log + [Deploying(head, s.checkout)];
    || t == s
    || (!NotSendable(s.record, head, s.checkout)
        && (t == s.(checkout := head)
            || t == s.(checkout := head, log := deployed)
            || t == State(None, head, deployed + [Spent])
            || t == State(None, head, deployed + [Spent, Completed(head)])))
  }

  predicate Does(s: State, c: Command, t: State) {
    match c
    case ToProve(_, _, _) => Proves(s, c, t)
    case ToApprove(_, _, _) => Approves(s, c, t)
    case ToSend(head) => Sends(s, head, t)
  }

  /** The commands, one after another on an empty log, lead to `t`. */
  ghost predicate Runs(checkout: string, commands: seq<Command>, t: State)
    decreases |commands|
  {
    if commands == [] then t == State(None, checkout, []) else
    var n := |commands| - 1;
    exists s :: Runs(checkout, commands[..n], s) && Does(s, commands[n], t)
  }

  lemma RunsOn(checkout: string, commands: seq<Command>, s: State, c: Command, t: State)
    requires Runs(checkout, commands, s) && Does(s, c, t)
    ensures Runs(checkout, commands + [c], t)
  {
    assert (commands + [c])[..|commands|] == commands;
  }

  lemma RunsOneMore(checkout: string, commands: seq<Command>, i: nat, s: State, t: State)
    requires i < |commands| && Runs(checkout, commands[..i], s) && Does(s, commands[i], t)
    ensures Runs(checkout, commands[..i + 1], t)
  {
    RunsOn(checkout, commands[..i], s, commands[i], t);
    assert commands[..i] + [commands[i]] == commands[..i + 1];
  }

  // --- What every run keeps -------------------------------------------------------

  lemma LogGrows(log: seq<Event>, e: Event)
    requires LogHolds(log) && !e.Deploying? && !e.Completed?
    ensures LogHolds(log + [e])
  {
    EarlierHold(log, e);
  }

  // What held of the log's events holds of them in the longer log.
  lemma EarlierHold(log: seq<Event>, e: Event)
    requires LogHolds(log)
    ensures forall i :: 0 <= i < |log| && log[i].Deploying? ==> Justified(log + [e], i)
    ensures forall j :: 0 <= j < |log| && log[j].Completed? ==> exists d :: CompletedBy(log + [e], j, d)
  {
    var more := log + [e];
    forall i | 0 <= i < |log| && log[i].Deploying? ensures Justified(more, i) {
      var p, a :| JustifiedBy(log, i, p, a);
      assert JustifiedBy(more, i, p, a);
    }
    forall j | 0 <= j < |log| && log[j].Completed? ensures exists d :: CompletedBy(more, j, d) {
      var d :| CompletedBy(log, j, d);
      assert CompletedBy(more, j, d);
    }
  }

  ghost predicate Holds(s: State) { LogHolds(s.log) && Recorded(s.log, s.record) }

  lemma ProvesKeeps(s: State, c: Command, t: State)
    requires Holds(s) && c.ToProve? && Proves(s, c, t)
    ensures Holds(t)
  {
    LogGrows(s.log, Spent);
    if t.record.Some? && t != s {
      var proof := Proved(c.head, s.checkout, LaneOf(c.o, s.checkout));
      LogGrows(s.log + [Spent], proof);
      assert t.log == s.log + [Spent] + [proof];
      assert RecordedBy(t.log, t.record.value, |t.log| - 1, 0);
    }
  }

  lemma ApprovesKeeps(s: State, c: Command, t: State)
    requires Holds(s) && c.ToApprove? && Approves(s, c, t)
    ensures Holds(t)
  {
    if t != s {
      var p, a :| RecordedBy(s.log, s.record.value, p, a);
      LogGrows(s.log, Approved(c.head));
      assert RecordedBy(t.log, t.record.value, p, |t.log| - 1);
    }
  }

  lemma DeployIsJustified(s: State, head: string)
    requires Holds(s) && !NotSendable(s.record, head, s.checkout)
    ensures
      var log := s.log + [Deploying(head, s.checkout)];
      LogHolds(log) && Recorded(log, s.record)
  {
    var log := s.log + [Deploying(head, s.checkout)];
    var p, a :| RecordedBy(s.log, s.record.value, p, a);
    EarlierHold(s.log, Deploying(head, s.checkout));
    assert JustifiedBy(log, |log| - 1, p, a);
    assert RecordedBy(log, s.record.value, p, a);
  }

  lemma ClosedHolds(log: seq<Event>, head: string)
    requires LogHolds(log) && log != [] && log[|log| - 1].Deploying? && log[|log| - 1].commit == head
    ensures LogHolds(log + [Spent]) && LogHolds(log + [Spent, Completed(head)])
  {
    LogGrows(log, Spent);
    EarlierHold(log + [Spent], Completed(head));
    var done := log + [Spent] + [Completed(head)];
    assert CompletedBy(done, |done| - 1, |done| - 3);
    assert done == log + [Spent, Completed(head)];
  }

  lemma SendsKeeps(s: State, head: string, t: State)
    requires Holds(s) && Sends(s, head, t)
    ensures Holds(t)
  {
    if t != s {
      DeployIsJustified(s, head);
      ClosedHolds(s.log + [Deploying(head, s.checkout)], head);
    }
  }

  lemma {:induction false} RunHolds(checkout: string, commands: seq<Command>, t: State)
    requires Runs(checkout, commands, t)
    ensures Holds(t)
    decreases |commands|
  {
    if commands != [] {
      var c := commands[|commands| - 1];
      var s :| Runs(checkout, commands[..|commands| - 1], s) && Does(s, c, t);
      RunHolds(checkout, commands[..|commands| - 1], s);
      match c
      case ToProve(_, _, _) => ProvesKeeps(s, c, t);
      case ToApprove(_, _, _) => ApprovesKeeps(s, c, t);
      case ToSend(head) => SendsKeeps(s, head, t);
    }
  }

  // --- The desk ---------------------------------------------------------------------

  class Desk {
    var record: Option<Record>
    var checkout: string                // production's checkout: what `deploy` there deploys
    ghost var log: seq<Event>

    ghost function Now(): State
      reads this
    {
      State(record, checkout, log)
    }

    constructor (checkout: string)
      ensures Now() == State(None, checkout, [])
    {
      this.checkout, log, record := checkout, [], None;
    }

    method Unlink()
      modifies this`record, this`log
      ensures record == None && log == old(log) + [Spent]
    {
      record, log := None, log + [Spent];
    }

    /** prove: any step may fail; the last one spends the earlier record before staging changes under
        it, and writes the new one only when the twin has passed, or at once in the quick lane. */
    method Prove(head: string, ancestor: bool, o: Options) returns (ok: bool)
      modifies this`record, this`log
      ensures Proves(old(Now()), ToProve(head, ancestor, o), Now())
      ensures ok && !StopsEarly(o) ==> ancestor && record == Some(Record(head, checkout, false))
      ensures ok && !StopsEarly(o) ==> log == old(log) + [Spent, Proved(head, checkout, LaneOf(o, checkout))]
      ensures !ok || StopsEarly(o) ==> record in {old(record), None} && old(log) <= log <= old(log) + [Spent]
      ensures StopsEarly(o) ==> record == old(record) && log == old(log)
    {
      ok := *;                          // clean
      if !ok || !ancestor { return false; }
      ghost var was := log;
      ok := *;                          // checks, reach, disk, build
      if !ok || StopsEarly(o) { return; }
      Unlink();
      if !LaneOf(o, checkout).Quick? {
        ok := *;                        // the twin
        if !ok { return; }
      }
      ghost var proof := Proved(head, checkout, LaneOf(o, checkout));
      record, log := Some(Record(head, checkout, false)), log + [proof];
      assert log == was + [Spent, proof];
    }

    /** approve: the owner's word, typed in a terminal, for the commit that was proved. */
    method Approve(head: string, typed: string, tty: bool) returns (ok: bool)
      modifies this`record, this`log
      ensures Approves(old(Now()), ToApprove(head, typed, tty), Now())
      ensures ok == !NotApprovable(old(record), head, typed, tty)
      ensures ok ==> record == Some(old(record).value.(approved := true)) && log == old(log) + [Approved(head)]
      ensures !ok ==> record == old(record) && log == old(log)
    {
      ok := !NotApprovable(record, head, typed, tty);
      if ok {
        record, log := Some(record.value.(approved := true)), log + [Approved(head)];
      }
    }

    /** send: refused unless this very commit is proved from production's and approved; then push,
        ship, deploy, resolvers and close, any of which may fail, the ship perhaps after it moved
        production's checkout. */
    method Send(head: string) returns (ok: bool)
      modifies this
      ensures Sends(old(Now()), head, Now())
      ensures NotSendable(old(record), head, old(checkout)) ==> !ok && Now() == old(Now())
      ensures ok ==> record == None && checkout == head
      ensures ok ==> log == old(log) + [Deploying(head, old(checkout)), Spent, Completed(head)]
    {
      ok := *;                          // a clean checkout here and there
      if !ok || NotSendable(record, head, checkout) { return false; }
      var over := checkout;
      ok := *;                          // push
      if !ok { return; }
      ok := *;                          // ship
      var moved: bool := *;
      if ok || moved {
        checkout := head;
      }
      if !ok { return; }
      ghost var deployed := log + [Deploying(head, over)];
      log := deployed;
      ok := *;                          // deploy, then the resolvers
      if !ok { return; }
      Unlink();
      ok := *;                          // the registry is pruned
      if !ok { return; }
      log := log + [Completed(head)];
      assert log == deployed + [Spent, Completed(head)];
    }

    method Do(c: Command) returns (ok: bool)
      modifies this
      ensures Does(old(Now()), c, Now())
    {
      match c {
        case ToProve(head, ancestor, o) => ok := Prove(head, ancestor, o);
        case ToApprove(head, typed, tty) => ok := Approve(head, typed, tty);
        case ToSend(head) => ok := Send(head);
      }
    }
  }

  /** Any run: commands one after another, on whatever checkouts, each failing where it may. */
  method Run(checkout: string, commands: seq<Command>) returns (desk: Desk)
    ensures Runs(checkout, commands, desk.Now()) && LogHolds(desk.log)
  {
    desk := new Desk(checkout);
    for i := 0 to |commands|
      invariant fresh(desk) && Runs(checkout, commands[..i], desk.Now())
    {
      ghost var before := desk.Now();
      var ok := desk.Do(commands[i]);
      RunsOneMore(checkout, commands, i, before, desk.Now());
    }
    assert commands[..|commands|] == commands;
    RunHolds(checkout, commands, desk.Now());
  }

  // --- What any run of the commands says -----------------------------------------------------

  /** Every deploy to production is of a commit that was proved while production was at the very
      commit it goes over, with the owner's approval given after that proof and nothing proved in
      between. */
  lemma DeploysAreProvedAndApproved(checkout: string, commands: seq<Command>, t: State, i: nat)
    requires Runs(checkout, commands, t) && i < |t.log| && t.log[i].Deploying?
    ensures exists p, a ::
      && 0 <= p < a < i && IsProof(t.log[p], t.log[i].commit, t.log[i].over) && t.log[a] == Approved(t.log[i].commit)
      && forall k :: p < k < i ==> !t.log[k].Proved?
  {
    RunHolds(checkout, commands, t);
    var p, a :| JustifiedBy(t.log, i, p, a);
    assert IsProof(t.log[p], t.log[i].commit, t.log[i].over) && t.log[a] == Approved(t.log[i].commit);
  }

  // The command that this proof is of.
  predicate MadeBy(e: Event, c: Command) {
    e.Proved? && c.ToProve? && c.head == e.commit && e.lane == LaneOf(c.o, e.production)
  }

  lemma NewProofIsMade(s: State, c: Command, t: State, p: nat)
    requires Does(s, c, t) && p < |t.log| && t.log[p].Proved?
    ensures (p < |s.log| && t.log[p] == s.log[p]) || MadeBy(t.log[p], c)
  {
  }

  lemma {:induction false} ProofsAreMade(checkout: string, commands: seq<Command>, t: State, p: nat) returns (c: Command)
    requires Runs(checkout, commands, t) && p < |t.log| && t.log[p].Proved?
    ensures c in commands && MadeBy(t.log[p], c)
    decreases |commands|
  {
    var last := commands[|commands| - 1];
    var s :| Runs(checkout, commands[..|commands| - 1], s) && Does(s, last, t);
    NewProofIsMade(s, last, t, p);
    if p < |s.log| && t.log[p] == s.log[p] {
      c := ProofsAreMade(checkout, commands[..|commands| - 1], s, p);
    } else {
      c := last;
    }
  }

  /** And behind that proof is a twin that went from the commit the deploy goes over, which is what a
      twin is for, exactly when it was proved without --from or with a name of that very commit,
      and not in the quick lane. */
  lemma DeployIsProvedFromIff(checkout: string, commands: seq<Command>, t: State, i: nat)
    returns (p: nat, c: Command)
    requires Runs(checkout, commands, t) && i < |t.log| && t.log[i].Deploying?
    ensures p < i && IsProof(t.log[p], t.log[i].commit, t.log[i].over) && c in commands && MadeBy(t.log[p], c)
    ensures forall k :: p < k < i ==> !t.log[k].Proved?
    ensures t.log[p].lane == Twin(t.log[i].over) <==>
      if HasFrom(c.o) then c.o.twinFrom.value.commit == t.log[i].over else c.o.full || !c.o.quick
  {
    RunHolds(checkout, commands, t);
    var q, a :| JustifiedBy(t.log, i, q, a);
    p := q;
    c := ProofsAreMade(checkout, commands, t, p);
  }

  lemma ThreeCommands(checkout: string, c0: Command, s1: State, c1: Command, s2: State, c2: Command, t: State)
    requires Does(State(None, checkout, []), c0, s1) && Does(s1, c1, s2) && Does(s2, c2, t)
    ensures Runs(checkout, [c0, c1, c2], t)
  {
    RunsOn(checkout, [], State(None, checkout, []), c0, s1);
    assert [] + [c0] == [c0];
    RunsOn(checkout, [c0], s1, c1, s2);
    assert [c0] + [c1] == [c0, c1];
    RunsOn(checkout, [c0, c1], s2, c2, t);
    assert [c0, c1] + [c2] == [c0, c1, c2];
  }

  /** What a proof, its approval and its send leave, nothing failing. */
  lemma ReleasedIn(checkout: string, head: string, o: Options) returns (t: State)
    requires !StopsEarly(o)
    ensures Runs(checkout, [ToProve(head, true, o), ToApprove(head, Prefix(head), true), ToSend(head)], t)
    ensures t.log ==
      [Spent, Proved(head, checkout, LaneOf(o, checkout)), Approved(head), Deploying(head, checkout), Spent, Completed(head)]
  {
    var c0, c1, c2 := ToProve(head, true, o), ToApprove(head, Prefix(head), true), ToSend(head);
    var s1 := State(Some(Record(head, checkout, false)), checkout, [Spent, Proved(head, checkout, LaneOf(o, checkout))]);
    var s2 := State(Some(Record(head, checkout, true)), checkout, s1.log + [Approved(head)]);
    t := State(None, head, s2.log + [Deploying(head, checkout)] + [Spent, Completed(head)]);
    ThreeCommands(checkout, c0, s1, c1, s2, c2, t);
  }

  /** With --from anything else, a commit is proved, approved, sent and deployed that was never
      proved from the commit it goes over. */
  lemma FromDeploysUnproved(checkout: string, head: string, o: Options) returns (t: State)
    requires HasFrom(o) && o.twinFrom.value.commit != checkout && !StopsEarly(o)
    ensures Runs(checkout, [ToProve(head, true, o), ToApprove(head, Prefix(head), true), ToSend(head)], t)
    ensures Deploying(head, checkout) in t.log && Completed(head) in t.log
    ensures forall e :: e in t.log && e.Proved? ==> e.lane.Twin? && e.lane.from != checkout
  {
    t := ReleasedIn(checkout, head, o);
    assert t.log[3] == Deploying(head, checkout) && t.log[5] == Completed(head);
  }

  /** One approval yields at most one completed send: between two of them the owner approved again. */
  lemma EachSendHasItsApproval(checkout: string, commands: seq<Command>, t: State, i: nat, j: nat)
    requires Runs(checkout, commands, t) && i < j < |t.log| && t.log[i].Completed? && t.log[j].Completed?
    ensures Between(t.log, i, j, Approved(t.log[j].commit))
  {
    RunHolds(checkout, commands, t);
    var c :| CompletedBy(t.log, i, c);
    var d :| CompletedBy(t.log, j, d);
    assert t.log[i - 1].Spent?;
    var p, a :| JustifiedBy(t.log, d, p, a);
    assert p > i - 1 by {
      assert Standing(t.log, p, d);
    }
  }

  /** After a send that moved production's checkout and failed before its end, every further send
      of that commit is refused, and nothing ever deployed by it, exactly when production was on
      another commit before. */
  lemma SentOnceShippedIff(s: State, head: string, t: State)
    requires Sends(s, head, t) && !NotSendable(s.record, head, s.checkout)
    requires t.checkout == head && t.record.Some?
    ensures (forall u :: Sends(t, head, u) ==> u == t) <==> s.checkout != head
  {
    if s.checkout == head {
      var u := t.(checkout := head, log := t.log + [Deploying(head, t.checkout)]);
      assert Sends(t, head, u) && |u.log| > |t.log|;
    }
  }
}

/** The domestic domain's doors on ArvanCloud (scripts/edge/arvan_zone.py). */
module ArvanZone {
  import opened ZoneStore
  import opened Wrappers
  import opened Strings

  datatype Address = Address(ip: string, port: Option<nat>)

  // A record of another shape than an address list has no addresses.
  datatype Body = Body(kind: string, value: seq<Address>, cloud: Option<bool>, upstream: Option<string>, ttl: nat)

  type Arvan = Zone<Body, bool>              // the setting: the edge certificate is on
  type Request = Change<Body, bool>

  function Shown(): Body -> bool { (b: Body) => true }

  const DOOR_NAMES := ["api", "panel", "sub"]
  const DOOR_PORT := 443
  const FORMER_PORT := 8443
  const TARGET := "*.edge"
  const TTL := 120

  // --- The plan ----------------------------------------------------------------

  /** _ours: an A record, every address on a port this driver gives. */
  predicate Ours(b: Body) {
    b.kind == "a" && b.value != [] && forall v :: v in b.value ==> v.port in {Some(DOOR_PORT), Some(FORMER_PORT)}
  }

  function DoorBody(ip: string): Body { Body("a", [Address(ip, Some(DOOR_PORT))], Some(true), Some("https"), TTL) }

  function TargetBody(ip: string): Body { Body("a", [Address(ip, None)], Some(false), None, TTL) }

  /** _door: none, or one that is this driver's. */
  function Door(records: seq<Record<Body>>, name: string): Result<Option<Record<Body>>> {
    var found := Named(records, name, Shown());
    if |found| > 1 || (found != [] && !Ours(found[0].body)) then Refused
    else Ok(if found == [] then None else Some(found[0]))
  }

  /** _target */
  function Target(records: seq<Record<Body>>): Result<Option<Record<Body>>> {
    var found := Named(records, TARGET, Shown());
    if |found| > 1 || (found != [] && found[0].body.kind != "a") then Refused
    else Ok(if found == [] then None else Some(found[0]))
  }

  /** _differs */
  predicate Differs(b: Body, ip: string) {
    b.value != [Address(ip, Some(DOOR_PORT))] || b.cloud != Some(true) || b.upstream != Some("https")
  }

  // The address a door is to be on: the one given, else the one it has.
  function DoorIp(records: seq<Record<Body>>, name: string, origin: Option<string>): Result<string> {
    var current := Door(records, name);
    if current.Refused? then Refused else
    if origin.Some? then Ok(origin.value) else
    if current.value.None? then Refused else Ok(current.value.value.body.value[0].ip)
  }

  function DoorChange(records: seq<Record<Body>>, name: string, origin: Option<string>): Result<seq<Request>> {
    var current, ip := Door(records, name), DoorIp(records, name, origin);
    if current.Refused? || ip.Refused? then Refused else
    if current.value.None? then Ok([Create(name, DoorBody(ip.value))]) else
    if Differs(current.value.value.body, ip.value) then Ok([Update(current.value.value.id, name, DoorBody(ip.value))])
    else Ok([])
  }

  // The doors' changes and the addresses they are on.
  function Doors(records: seq<Record<Body>>, names: seq<string>, origin: Option<string>): Result<(seq<Request>, set<string>)> {
    if names == [] then Ok(([], if origin.Some? then {origin.value} else {})) else
    var last, before := names[|names| - 1], Doors(records, names[..|names| - 1], origin);
    var change, ip := DoorChange(records, last, origin), DoorIp(records, last, origin);
    if before.Refused? || change.Refused? then Refused
    else Ok((before.value.0 + change.value, before.value.1 + {ip.value}))
  }

  // The reseller target: the given address, else its own, else the least of the doors'. An A
  // record without an address gives none to keep.
  function TargetChange(records: seq<Record<Body>>, origin: Option<string>, least: string): Result<seq<Request>> {
    var current := Target(records);
    if current.Refused? || (origin.None? && current.value.Some? && current.value.value.body.value == []) then Refused else
    var ip := if origin.Some? then origin.value
      else if current.value.Some? then current.value.value.body.value[0].ip else least;
    if current.value.None? then Ok([Create(TARGET, TargetBody(ip))]) else
    var b := current.value.value.body;
    if |b.value| != 1 || b.value[0].ip != ip || b.cloud != Some(false)
    then Ok([Update(current.value.value.id, TARGET, TargetBody(ip))]) else Ok([])
  }

  function CertificateChange(on: bool): seq<Request> { if on then [] else [Set(true)] }

  // sorted(addresses)[0]
  type Least = set<string> -> string

  /** plan: each door's record, the target's and the edge certificate, each only if it differs. */
  function Plan(zone: Arvan, names: seq<string>, origin: Option<string>, least: Least): Result<seq<Request>> {
    var doors := Doors(zone.records, names, origin);
    if doors.Refused? then Refused else
    var target := TargetChange(zone.records, origin, least(doors.value.1));
    if target.Refused? then Refused
    else Ok(doors.value.0 + target.value + CertificateChange(zone.setting))
  }

  /** plan, as its loop over the doors goes. */
  method MakePlan(zone: Arvan, names: seq<string>, address: Option<string>, ipv4: string -> Option<string>, least: Least)
    returns (r: Result<seq<Request>>)
    ensures r == if address.Some? && ipv4(address.value).None? then Refused
      else Plan(zone, names, if address.Some? then ipv4(address.value) else None, least)
  {
    var origin: Option<string> := None;
    if address.Some? {
      origin := ipv4(address.value);
      if origin.None? { return Refused; }
    }
    var changes: seq<Request>, addresses := [], if origin.Some? then {origin.value} else {};
    for i := 0 to |names|
      invariant Doors(zone.records, names[..i], origin) == Ok((changes, addresses))
    {
      var name := names[i];
      assert names[..i + 1][..i] == names[..i] && names[..i + 1][i] == name;
      var change, ip := DoorChange(zone.records, name, origin), DoorIp(zone.records, name, origin);
      if change.Refused? {
        RefusedStays(zone.records, names, i + 1, origin);
        return Refused;
      }
      changes, addresses := changes + change.value, addresses + {ip.value};
    }
    assert names[..|names|] == names;
    var target := TargetChange(zone.records, origin, least(addresses));
    if target.Refused? { return Refused; }
    r := Ok(changes + target.value + CertificateChange(zone.setting));
  }

  lemma {:induction false} RefusedStays(records: seq<Record<Body>>, names: seq<string>, i: nat, origin: Option<string>)
    requires i <= |names| && Doors(records, names[..i], origin).Refused?
    ensures Doors(records, names, origin).Refused?
    decreases |names|
  {
    if i == |names| {
      assert names[..i] == names;
    } else {
      assert names[..|names| - 1][..i] == names[..i];
      RefusedStays(records, names[..|names| - 1], i, origin);
    }
  }

  // --- Runs of `apply` ---------------------------------------------------------------

  // Door names: different, and none the target's.
  predicate DoorNames(names: seq<string>) { TARGET !in names && Distinct(names) }

  // The two zones hold the same under each of these names.
  predicate SameNamed(a: seq<Record<Body>>, b: seq<Record<Body>>, names: seq<string>) {
    forall n :: n in names ==> Named(a, n, Shown()) == Named(b, n, Shown())
  }

  lemma {:induction false} SameDoors(a: seq<Record<Body>>, b: seq<Record<Body>>, names: seq<string>, origin: Option<string>)
    requires SameNamed(a, b, names)
    ensures Doors(a, names, origin) == Doors(b, names, origin)
  {
    if names != [] {
      assert names[|names| - 1] in names;
      SameDoors(a, b, names[..|names| - 1], origin);
    }
  }

  // One door's request sent: it is done, on the address it was to be on.
  lemma DoorSent(zone: Arvan, name: string, origin: Option<string>)
    requires OwnIds(zone.records) && DoorChange(zone.records, name, origin).Ok?
    requires DoorChange(zone.records, name, origin).value != []
    ensures var c := DoorChange(zone.records, name, origin).value[0]; var now := Made(zone, c);
      && DoorChange(zone.records, name, origin) == Ok([c])
      && !c.Set? && c.name == name && Proper(zone.records, c, Shown())
      && DoorChange(now.records, name, origin) == Ok([])
      && DoorIp(now.records, name, origin) == DoorIp(zone.records, name, origin)
  {
    NamedAreRecords(zone.records, name, Shown());
    var c := DoorChange(zone.records, name, origin).value[0];
    MadeShows(zone, c, name, Shown());
  }

  lemma LastDoorSent(zone: Arvan, front: seq<string>, last: string, origin: Option<string>)
    requires OwnIds(zone.records) && last !in front && DoorChange(zone.records, last, origin).Ok?
    requires DoorChange(zone.records, last, origin).value != []
    ensures var c := DoorChange(zone.records, last, origin).value[0]; var now := Made(zone, c).records;
      && !c.Set? && c.name == last && Proper(zone.records, c, Shown())
      && DoorChange(zone.records, last, origin) == Ok([c]) && DoorChange(now, last, origin) == Ok([])
      && DoorIp(now, last, origin) == DoorIp(zone.records, last, origin)
      && Doors(now, front, origin) == Doors(zone.records, front, origin)
  {
    DoorSent(zone, last, origin);
    var c := DoorChange(zone.records, last, origin).value[0];
    forall n | n in front ensures Named(zone.records, n, Shown()) == Named(Made(zone, c).records, n, Shown()) {
      MadeShows(zone, c, n, Shown());
    }
    SameDoors(zone.records, Made(zone, c).records, front, origin);
  }

  lemma DoorAsBefore(a: seq<Record<Body>>, b: seq<Record<Body>>, name: string, origin: Option<string>)
    requires Named(a, name, Shown()) == Named(b, name, Shown())
    ensures DoorChange(a, name, origin) == DoorChange(b, name, origin) && DoorIp(a, name, origin) == DoorIp(b, name, origin)
  {
  }

  /** The first of the doors' requests sent: the others are left, on the same addresses. */
  lemma {:induction false} OneDoorSent(zone: Arvan, names: seq<string>, origin: Option<string>)
    requires OwnIds(zone.records) && DoorNames(names)
    requires Doors(zone.records, names, origin).Ok? && Doors(zone.records, names, origin).value.0 != []
    ensures var (changes, addresses) := Doors(zone.records, names, origin).value; var c := changes[0];
      && !c.Set? && c.name in names && Proper(zone.records, c, Shown())
      && Doors(Made(zone, c).records, names, origin) == Ok((changes[1..], addresses))
  {
    var front, last := names[..|names| - 1], names[|names| - 1];
    var before, change := Doors(zone.records, front, origin).value, DoorChange(zone.records, last, origin).value;
    assert last !in front;
    if before.0 != [] {
      var c := before.0[0];
      OneDoorSent(zone, front, origin);
      MadeShows(zone, c, last, Shown());
      DoorAsBefore(zone.records, Made(zone, c).records, last, origin);
      assert (before.0 + change)[0] == c && (before.0 + change)[1..] == before.0[1..] + change;
    } else {
      LastDoorSent(zone, front, last, origin);
      assert [] + change == change && change[1..] == [] + [];
    }
  }

  lemma TargetSent(zone: Arvan, names: seq<string>, origin: Option<string>, least: string)
    requires OwnIds(zone.records) && DoorNames(names)
    requires TargetChange(zone.records, origin, least).Ok? && TargetChange(zone.records, origin, least).value != []
    ensures var c := TargetChange(zone.records, origin, least).value[0]; var now := Made(zone, c);
      && TargetChange(zone.records, origin, least) == Ok([c])
      && !c.Set? && c.name == TARGET && Proper(zone.records, c, Shown())
      && TargetChange(now.records, origin, least) == Ok([])
      && SameNamed(zone.records, now.records, names)
  {
    NamedAreRecords(zone.records, TARGET, Shown());
    var c := TargetChange(zone.records, origin, least).value[0];
    MadeShows(zone, c, TARGET, Shown());
    forall n | n in names ensures Named(zone.records, n, Shown()) == Named(Made(zone, c).records, n, Shown()) {
      MadeShows(zone, c, n, Shown());
    }
  }

  lemma DoorsRequestSent(zone: Arvan, names: seq<string>, origin: Option<string>, least: Least)
    requires OwnIds(zone.records) && DoorNames(names) && Plan(zone, names, origin, least).Ok?
    requires Doors(zone.records, names, origin).value.0 != []
    ensures var c := Plan(zone, names, origin, least).value[0];
      && !c.Set? && Proper(zone.records, c, Shown()) && c.name in names
      && Plan(Made(zone, c), names, origin, least) == Ok(Plan(zone, names, origin, least).value[1..])
  {
    var doors := Doors(zone.records, names, origin).value;
    DropsFirst(doors.0, TargetChange(zone.records, origin, least(doors.1)).value, CertificateChange(zone.setting));
    OneDoorSent(zone, names, origin);
    MadeShows(zone, doors.0[0], TARGET, Shown());
  }

  lemma TargetsRequestSent(zone: Arvan, names: seq<string>, origin: Option<string>, least: Least)
    requires OwnIds(zone.records) && DoorNames(names) && Plan(zone, names, origin, least).Ok?
    requires var doors := Doors(zone.records, names, origin).value;
      doors.0 == [] && TargetChange(zone.records, origin, least(doors.1)).value != []
    ensures var c := Plan(zone, names, origin, least).value[0];
      && !c.Set? && Proper(zone.records, c, Shown()) && c.name == TARGET
      && Plan(Made(zone, c), names, origin, least) == Ok(Plan(zone, names, origin, least).value[1..])
  {
    var doors := Doors(zone.records, names, origin).value;
    var target := TargetChange(zone.records, origin, least(doors.1)).value;
    TargetSent(zone, names, origin, least(doors.1));
    DropsFirst(doors.0, target, CertificateChange(zone.setting));
    MadeShows(zone, target[0], TARGET, Shown());
    SameDoors(zone.records, Made(zone, target[0]).records, names, origin);
  }

  lemma OneSent(zone: Arvan, names: seq<string>, origin: Option<string>, least: Least)
    requires OwnIds(zone.records) && DoorNames(names)
    requires Plan(zone, names, origin, least).Ok? && Plan(zone, names, origin, least).value != []
    ensures var c := Plan(zone, names, origin, least).value[0];
      && Proper(zone.records, c, Shown()) && (c.Set? || c.name == TARGET || c.name in names)
      && Plan(Made(zone, c), names, origin, least) == Ok(Plan(zone, names, origin, least).value[1..])
  {
    var doors := Doors(zone.records, names, origin).value;
    var target := TargetChange(zone.records, origin, least(doors.1)).value;
    if doors.0 != [] {
      DoorsRequestSent(zone, names, origin, least);
    } else if target != [] {
      TargetsRequestSent(zone, names, origin, least);
    } else {
      DropsFirst(doors.0, target, CertificateChange(zone.setting));
    }
  }

  /** A send cut off after any request leaves a zone whose plan is exactly the requests not yet made;
      after the last one there is nothing to change. */
  lemma {:induction false} PlanResumes(zone: Arvan, names: seq<string>, origin: Option<string>, least: Least, sent: nat)
    requires OwnIds(zone.records) && DoorNames(names)
    requires Plan(zone, names, origin, least).Ok? && sent <= |Plan(zone, names, origin, least).value|
    ensures OwnIds(AllMade(zone, Plan(zone, names, origin, least).value[..sent]).records)
    ensures Plan(AllMade(zone, Plan(zone, names, origin, least).value[..sent]), names, origin, least) ==
      Ok(Plan(zone, names, origin, least).value[sent..])
    decreases sent
  {
    var changes := Plan(zone, names, origin, least).value;
    if sent > 0 {
      OneSent(zone, names, origin, least);
      OwnIdsKept(zone, changes[0]);
      PlanResumes(Made(zone, changes[0]), names, origin, least, sent - 1);
      SentOne(zone, changes, sent);
    } else {
      assert changes[..0] == [] && changes[0..] == changes;
    }
  }

  /** No record of a name that is neither a door nor the target is ever touched. */
  lemma {:induction false} OthersStay(zone: Arvan, names: seq<string>, origin: Option<string>, least: Least, sent: nat,
                                      r: Record<Body>)
    requires OwnIds(zone.records) && DoorNames(names) && r.name != TARGET && r.name !in names
    requires Plan(zone, names, origin, least).Ok? && sent <= |Plan(zone, names, origin, least).value|
    ensures r in AllMade(zone, Plan(zone, names, origin, least).value[..sent]).records <==> r in zone.records
    decreases sent
  {
    var changes := Plan(zone, names, origin, least).value;
    if sent > 0 {
      OneSent(zone, names, origin, least);
      OwnIdsKept(zone, changes[0]);
      OtherStays(zone, changes[0], r, Shown());
      OthersStay(Made(zone, changes[0]), names, origin, least, sent - 1, r);
      SentOne(zone, changes, sent);
    } else {
      assert changes[..0] == [];
    }
  }

  // A door as it should be, said of the zone alone.
  predicate DoorReady(records: seq<Record<Body>>, name: string, origin: Option<string>) {
    var found := Named(records, name, Shown());
    && |found| == 1 && found[0].body.kind == "a" && |found[0].body.value| == 1
    && found[0].body.value[0].port == Some(DOOR_PORT) && (origin.Some? ==> found[0].body.value[0].ip == origin.value)
    && found[0].body.cloud == Some(true) && found[0].body.upstream == Some("https")
  }

  predicate TargetReady(records: seq<Record<Body>>, origin: Option<string>) {
    var found := Named(records, TARGET, Shown());
    && |found| == 1 && found[0].body.kind == "a" && |found[0].body.value| == 1
    && (origin.Some? ==> found[0].body.value[0].ip == origin.value) && found[0].body.cloud == Some(false)
  }

  lemma {:induction false} DoorsReadyIff(records: seq<Record<Body>>, names: seq<string>, origin: Option<string>)
    ensures Doors(records, names, origin).Ok? && Doors(records, names, origin).value.0 == [] <==>
      forall n :: n in names ==> DoorReady(records, n, origin)
  {
    if names != [] {
      var front, last := names[..|names| - 1], names[|names| - 1];
      DoorsReadyIff(records, front, origin);
      DoorReadyIff(records, last, origin);
      assert names == front + [last];
    }
  }

  lemma DoorReadyIff(records: seq<Record<Body>>, name: string, origin: Option<string>)
    ensures DoorChange(records, name, origin) == Ok([]) <==> DoorReady(records, name, origin)
  {
    var found := Named(records, name, Shown());
    if |found| == 1 && found[0].body.value != [] {
      var b := found[0].body;
      var ip := if origin.Some? then origin.value else b.value[0].ip;
      assert b.value == [Address(ip, Some(DOOR_PORT))] <==> |b.value| == 1 && b.value[0] == Address(ip, Some(DOOR_PORT));
    }
  }

  /** Nothing is left to change exactly when every door, the target and the certificate are ready. */
  lemma NothingToChangeIff(zone: Arvan, names: seq<string>, origin: Option<string>, least: Least)
    ensures Plan(zone, names, origin, least) == Ok([]) <==>
      (forall n :: n in names ==> DoorReady(zone.records, n, origin)) && TargetReady(zone.records, origin) && zone.setting
  {
    DoorsReadyIff(zone.records, names, origin);
  }

  // --- Repointing ----------------------------------------------------------------------

  predicate On(b: Body, address: string) { exists v :: v in b.value && v.ip == address }

  function DoorMove(records: seq<Record<Body>>, name: string, from: string, to: string): Result<seq<Request>> {
    var current := Door(records, name);
    if current.Refused? then Refused else
    if current.value.Some? && On(current.value.value.body, from)
    then Ok([Update(current.value.value.id, name, DoorBody(to))]) else Ok([])
  }

  function DoorMoves(records: seq<Record<Body>>, names: seq<string>, from: string, to: string): Result<seq<Request>> {
    if names == [] then Ok([]) else
    Both(DoorMoves(records, names[..|names| - 1], from, to), DoorMove(records, names[|names| - 1], from, to))
  }

  function TargetMove(records: seq<Record<Body>>, from: string, to: string): Result<seq<Request>> {
    var current := Target(records);
    if current.Refused? then Refused else
    if current.value.Some? && On(current.value.value.body, from)
    then Ok([Update(current.value.value.id, TARGET, TargetBody(to))]) else Ok([])
  }

  /** repoint: each door on the first address, then the target. */
  function Repoint(records: seq<Record<Body>>, names: seq<string>, from: string, to: string): Result<seq<Request>> {
    var doors, target := DoorMoves(records, names, from, to), TargetMove(records, from, to);
    if from == to || doors.Refused? || doors.value == [] || target.Refused? then Refused
    else Ok(doors.value + target.value)
  }

  lemma {:induction false} SameMoves(a: seq<Record<Body>>, b: seq<Record<Body>>, names: seq<string>, from: string, to: string)
    requires SameNamed(a, b, names)
    ensures DoorMoves(a, names, from, to) == DoorMoves(b, names, from, to)
  {
    if names != [] {
      assert names[|names| - 1] in names;
      SameMoves(a, b, names[..|names| - 1], from, to);
    }
  }

  lemma DoorMoved(zone: Arvan, name: string, from: string, to: string)
    requires OwnIds(zone.records) && from != to && DoorMove(zone.records, name, from, to).Ok?
    requires DoorMove(zone.records, name, from, to).value != []
    ensures var c := DoorMove(zone.records, name, from, to).value[0];
      && DoorMove(zone.records, name, from, to) == Ok([c])
      && !c.Set? && c.name == name && Proper(zone.records, c, Shown())
      && DoorMove(Made(zone, c).records, name, from, to) == Ok([])
  {
    NamedAreRecords(zone.records, name, Shown());
    var c := DoorMove(zone.records, name, from, to).value[0];
    MadeShows(zone, c, name, Shown());
  }

  lemma LastDoorMoved(zone: Arvan, front: seq<string>, last: string, from: string, to: string)
    requires OwnIds(zone.records) && last !in front && from != to && DoorMove(zone.records, last, from, to).Ok?
    requires DoorMove(zone.records, last, from, to).value != []
    ensures var c := DoorMove(zone.records, last, from, to).value[0]; var now := Made(zone, c).records;
      && !c.Set? && c.name == last && Proper(zone.records, c, Shown())
      && DoorMove(zone.records, last, from, to) == Ok([c]) && DoorMove(now, last, from, to) == Ok([])
      && DoorMoves(now, front, from, to) == DoorMoves(zone.records, front, from, to)
  {
    DoorMoved(zone, last, from, to);
    var c := DoorMove(zone.records, last, from, to).value[0];
    forall n | n in front ensures Named(zone.records, n, Shown()) == Named(Made(zone, c).records, n, Shown()) {
      MadeShows(zone, c, n, Shown());
    }
    SameMoves(zone.records, Made(zone, c).records, front, from, to);
  }

  lemma {:induction false} OneDoorMoved(zone: Arvan, names: seq<string>, from: string, to: string)
    requires OwnIds(zone.records) && DoorNames(names) && from != to
    requires DoorMoves(zone.records, names, from, to).Ok? && DoorMoves(zone.records, names, from, to).value != []
    ensures var moves := DoorMoves(zone.records, names, from, to).value; var c := moves[0];
      && !c.Set? && c.name in names && Proper(zone.records, c, Shown())
      && DoorMoves(Made(zone, c).records, names, from, to) == Ok(moves[1..])
  {
    var front, last := names[..|names| - 1], names[|names| - 1];
    var before, move := DoorMoves(zone.records, front, from, to), DoorMove(zone.records, last, from, to);
    assert last !in front;
    if before.value != [] {
      var c := before.value[0];
      OneDoorMoved(zone, front, from, to);
      MadeShows(zone, c, last, Shown());
      MoveAsBefore(zone.records, Made(zone, c).records, last, from, to);
    } else {
      LastDoorMoved(zone, front, last, from, to);
    }
    BothDropsFirst(before, move);
  }

  lemma MoveAsBefore(a: seq<Record<Body>>, b: seq<Record<Body>>, name: string, from: string, to: string)
    requires Named(a, name, Shown()) == Named(b, name, Shown())
    ensures DoorMove(a, name, from, to) == DoorMove(b, name, from, to)
  {
  }

  // The first door of a repoint moved: the other doors and the target are left.
  lemma OneRepointed(zone: Arvan, names: seq<string>, from: string, to: string)
    requires OwnIds(zone.records) && DoorNames(names) && Repoint(zone.records, names, from, to).Ok?
    ensures var changes, doors := Repoint(zone.records, names, from, to).value, DoorMoves(zone.records, names, from, to).value;
      var now := Made(zone, changes[0]).records;
      && OwnIds(now) && DoorMoves(now, names, from, to) == Ok(doors[1..])
      && TargetMove(now, from, to) == TargetMove(zone.records, from, to)
      && changes[1..] == doors[1..] + TargetMove(zone.records, from, to).value
  {
    var doors := DoorMoves(zone.records, names, from, to).value;
    OneDoorMoved(zone, names, from, to);
    MadeShows(zone, doors[0], TARGET, Shown());
    OwnIdsKept(zone, doors[0]);
    assert (doors + TargetMove(zone.records, from, to).value)[0] == doors[0];
  }

  /** A repoint cut off resumes with exactly what is left if and only if a door is left: once every
      door has moved, a further run is refused, though the target may still hold the first address. */
  lemma {:induction false} RepointResumesIff(zone: Arvan, names: seq<string>, from: string, to: string, sent: nat)
    requires OwnIds(zone.records) && DoorNames(names) && Repoint(zone.records, names, from, to).Ok?
    requires sent <= |DoorMoves(zone.records, names, from, to).value|
    ensures var changes := Repoint(zone.records, names, from, to).value;
      var now := AllMade(zone, changes[..sent]).records;
      && (sent < |DoorMoves(zone.records, names, from, to).value| ==> Repoint(now, names, from, to) == Ok(changes[sent..]))
      && (sent == |DoorMoves(zone.records, names, from, to).value| ==> Repoint(now, names, from, to).Refused?)
      && TargetMove(now, from, to) == TargetMove(zone.records, from, to)
    decreases sent
  {
    var changes := Repoint(zone.records, names, from, to).value;
    if sent == 0 {
      assert changes[..0] == [] && changes[0..] == changes;
    } else {
      var next := Made(zone, changes[0]);
      OneRepointed(zone, names, from, to);
      SentOne(zone, changes, sent);
      if sent == |DoorMoves(zone.records, names, from, to).value| == 1 {
        assert changes[1..][..0] == [];
      } else {
        RepointResumesIff(next, names, from, to, sent - 1);
      }
    }
  }

  // A door and the reseller target, both on one address.
  function BothOn(address: string): Arvan {
    Zone([Record(0, DOOR_NAMES[0], DoorBody(address)), Record(1, TARGET, TargetBody(address))], true)
  }

  lemma BothOnShow(address: string, name: string)
    ensures Named(BothOn(address).records, name, Shown()) ==
      if name == DOOR_NAMES[0] then [BothOn(address).records[0]]
      else if name == TARGET then [BothOn(address).records[1]] else []
  {
    var records := BothOn(address).records;
    assert DOOR_NAMES[0][0] == 'a' && TARGET[0] == '*';
    var first := [records[0]];
    assert records[..1] == first && first[..0] == [];
    assert Named(first, name, Shown()) == if name == DOOR_NAMES[0] then first else [];
    assert [] + [records[1]] == [records[1]];
  }

  lemma MissingDoorStays(from: string, to: string, name: string)
    requires name in DOOR_NAMES && name != DOOR_NAMES[0]
    ensures DoorMove(BothOn(from).records, name, from, to) == Ok([])
  {
    assert DOOR_NAMES[0][0] == 'a' && DOOR_NAMES[1][0] == 'p' && DOOR_NAMES[2][0] == 's' && TARGET[0] == '*';
    BothOnShow(from, name);
  }

  lemma FirstDoorMoves(from: string, to: string)
    ensures
      var move := DoorMove(BothOn(from).records, DOOR_NAMES[0], from, to);
      move.Ok? && |move.value| == 1
  {
    BothOnShow(from, DOOR_NAMES[0]);
    assert DoorBody(from).value[0] in DoorBody(from).value;
  }

  /** Of the three doors, the one there moves. */
  lemma OneDoorToMove(from: string, to: string)
    requires from != to
    ensures
      var moves := DoorMoves(BothOn(from).records, DOOR_NAMES, from, to);
      moves.Ok? && |moves.value| == 1
  {
    var records, names := BothOn(from).records, DOOR_NAMES;
    FirstDoorMoves(from, to);
    var move := DoorMove(records, names[0], from, to);
    MissingDoorStays(from, to, names[1]);
    MissingDoorStays(from, to, names[2]);
    assert names[..2][..1] == names[..1] && names[..1][..0] == [];
    assert DoorMoves(records, names[..1], from, to) == Ok([] + move.value);
    assert DoorMoves(records, names[..2], from, to) == Ok([] + move.value + []);
  }

  lemma TargetToMove(from: string, to: string)
    ensures
      var move := TargetMove(BothOn(from).records, from, to);
      move.Ok? && move.value != []
  {
    BothOnShow(from, TARGET);
    assert DOOR_NAMES[0][0] == 'a' && TARGET[0] == '*';
    assert TargetBody(from).value[0] in TargetBody(from).value;
  }

  lemma DoorsAreNamed()
    ensures DoorNames(DOOR_NAMES)
  {
    assert DOOR_NAMES[0][0] == 'a' && DOOR_NAMES[1][0] == 'p' && DOOR_NAMES[2][0] == 's' && TARGET[0] == '*';
  }

  /** The target left behind: cut off after the last door's request, the repoint of the three doors is
      refused from then on. */
  lemma TargetMayStayBehind(from: string, to: string)
    requires from != to
    ensures var zone := BothOn(from);
      && Repoint(zone.records, DOOR_NAMES, from, to).Ok?
      && var now := AllMade(zone, Repoint(zone.records, DOOR_NAMES, from, to).value[..1]).records;
         (Repoint(now, DOOR_NAMES, from, to).Refused? && TargetMove(now, from, to).Ok? && TargetMove(now, from, to).value != [])
  {
    OneDoorToMove(from, to);
    TargetToMove(from, to);
    DoorsAreNamed();
    RepointResumesIff(BothOn(from), DOOR_NAMES, from, to, 1);
  }
}

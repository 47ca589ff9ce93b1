/** A DNS zone behind a provider's API: records with ids, one zone-wide setting, and the requests
    a run sends one by one (scripts/edge/edge_zone.py, scripts/edge/arvan_zone.py). */
module ZoneStore {
  import opened Wrappers

  datatype Result<T> = Ok(value: T) | Refused      // ZoneError

  datatype Record<B> = Record(id: nat, name: string, body: B)

  datatype Zone<B, S> = Zone(records: seq<Record<B>>, setting: S)

  datatype Change<B, S> =
    | Create(name: string, body: B)
    | Update(id: nat, name: string, body: B)
    | Set(setting: S)

  predicate OwnIds<B>(records: seq<Record<B>>) {
    forall i, j :: 0 <= i < j < |records| ==> records[i].id != records[j].id
  }

  // The records of one name that show, in the zone's order.
  function Named<B>(records: seq<Record<B>>, name: string, shows: B -> bool): seq<Record<B>> {
    if records == [] then [] else
    var last, before := records[|records| - 1], Named(records[..|records| - 1], name, shows);
    if last.name == name && shows(last.body) then before + [last] else before
  }

  // --- Sending -----------------------------------------------------------------

  function Updated<B>(records: seq<Record<B>>, id: nat, name: string, body: B): seq<Record<B>> {
    seq(|records|, i requires 0 <= i < |records| => if records[i].id == id then Record(id, name, body) else records[i])
  }

  // An id no record has.
  function NewId<B>(records: seq<Record<B>>): (n: nat)
    ensures forall r :: r in records ==> r.id < n
  {
    if records == [] then 0 else
    var n, last := NewId(records[..|records| - 1]), records[|records| - 1].id;
    assert records == records[..|records| - 1] + [records[|records| - 1]];
    if last < n then n else last + 1
  }

  function Made<B, S>(zone: Zone<B, S>, c: Change<B, S>): Zone<B, S> {
    match c
    case Create(name, body) => zone.(records := zone.records + [Record(NewId(zone.records), name, body)])
    case Update(id, name, body) => zone.(records := Updated(zone.records, id, name, body))
    case Set(setting) => zone.(setting := setting)
  }

  function AllMade<B, S>(zone: Zone<B, S>, changes: seq<Change<B, S>>): Zone<B, S>
    decreases |changes|
  {
    if changes == [] then zone else AllMade(Made(zone, changes[0]), changes[1..])
  }

  class Account<B, S> {
    var zone: Zone<B, S>

    constructor (zone: Zone<B, S>)
      ensures this.zone == zone
    {
      this.zone := zone;
    }

    /** send: one request a change, in order; a request that fails is the last. */
    method Send(changes: seq<Change<B, S>>) returns (sent: nat)
      modifies this
      ensures sent <= |changes| && zone == AllMade(old(zone), changes[..sent])
    {
      sent := 0;
      while sent < |changes|
        invariant sent <= |changes| && zone == AllMade(old(zone), changes[..sent])
      {
        var ok: bool := *;
        if !ok { return; }
        MadeLast(old(zone), changes[..sent], changes[sent]);
        assert changes[..sent + 1] == changes[..sent] + [changes[sent]];
        zone := Made(zone, changes[sent]);
        sent := sent + 1;
      }
    }
  }

  lemma {:induction false} MadeLast<B, S>(zone: Zone<B, S>, changes: seq<Change<B, S>>, c: Change<B, S>)
    ensures AllMade(zone, changes + [c]) == Made(AllMade(zone, changes), c)
    decreases |changes|
  {
    if changes == [] {
      assert ([] + [c])[1..] == [] && ([] + [c])[0] == c;
    } else {
      assert (changes + [c])[1..] == changes[1..] + [c];
      MadeLast(Made(zone, changes[0]), changes[1..], c);
    }
  }

  // One request of a run: what is left after it.
  lemma SentOne<B, S>(zone: Zone<B, S>, changes: seq<Change<B, S>>, sent: nat)
    requires 0 < sent <= |changes|
    ensures AllMade(zone, changes[..sent]) == AllMade(Made(zone, changes[0]), changes[1..][..sent - 1])
    ensures changes[1..][sent - 1..] == changes[sent..]
  {
    assert changes[..sent][1..] == changes[1..][..sent - 1] && changes[..sent][0] == changes[0];
  }

  // Two parts of a plan, refused when either is.
  function Both<T>(a: Result<seq<T>>, b: Result<seq<T>>): Result<seq<T>> {
    if a.Refused? || b.Refused? then Refused else Ok(a.value + b.value)
  }

  lemma BothDropsFirst<T>(a: Result<seq<T>>, b: Result<seq<T>>)
    requires a.Ok? && b.Ok?
    ensures a.value != [] ==> Both(a, b).value[0] == a.value[0] && Both(Ok(a.value[1..]), b) == Ok(Both(a, b).value[1..])
    ensures a.value == [] && |b.value| == 1 ==>
      Both(a, b).value[0] == b.value[0] && Both(a, Ok([])) == Ok(Both(a, b).value[1..])
  {
    if a.value != [] {
      assert (a.value + b.value)[1..] == a.value[1..] + b.value;
    } else {
      assert a.value + b.value == b.value;
      assert |b.value| == 1 ==> b.value[1..] == a.value + [];
    }
  }

  // The first of a run's requests, wherever it comes from, and the rest.
  lemma DropsFirst<T>(a: seq<T>, b: seq<T>, c: seq<T>)
    ensures a != [] ==> (a + b + c)[0] == a[0] && (a + b + c)[1..] == a[1..] + b + c
    ensures a == [] && |b| == 1 ==> (a + b + c)[0] == b[0] && (a + b + c)[1..] == [] + [] + c
    ensures a == [] && b == [] && |c| == 1 ==> (a + b + c)[0] == c[0] && (a + b + c)[1..] == [] + [] + []
  {
  }

  // --- One change ----------------------------------------------------------------

  lemma {:induction false} NamedAreRecords<B>(records: seq<Record<B>>, name: string, shows: B -> bool)
    ensures forall r :: r in Named(records, name, shows) ==> r in records && r.name == name && shows(r.body)
  {
    if records != [] {
      NamedAreRecords(records[..|records| - 1], name, shows);
    }
  }

  // A created record shows under its own name alone.
  lemma NamedAfterCreate<B>(records: seq<Record<B>>, r: Record<B>, name: string, shows: B -> bool)
    requires shows(r.body)
    ensures Named(records + [r], name, shows) ==
      if r.name == name then Named(records, name, shows) + [r] else Named(records, name, shows)
  {
    assert (records + [r])[..|records|] == records;
  }

  // So does an updated one, whose name stays.
  lemma {:induction false} NamedAfterUpdate<B>(records: seq<Record<B>>, id: nat, body: B, name: string, of: string,
                                               shows: B -> bool)
    requires shows(body) && forall r :: r in records && r.id == id ==> r.name == of && shows(r.body)
    ensures Named(Updated(records, id, of, body), name, shows) == Updated(Named(records, name, shows), id, of, body)
  {
    if records != [] {
      var front := records[..|records| - 1];
      assert Updated(records, id, of, body)[..|records| - 1] == Updated(front, id, of, body);
      NamedAfterUpdate(front, id, body, name, of, shows);
      assert records[|records| - 1] in records;
    }
  }

  lemma OwnIdsKept<B, S>(zone: Zone<B, S>, c: Change<B, S>)
    requires OwnIds(zone.records)
    ensures OwnIds(Made(zone, c).records)
  {
  }

  // What a planned change is about: the one record of its name, or none yet.
  predicate Proper<B, S>(records: seq<Record<B>>, c: Change<B, S>, shows: B -> bool) {
    match c
    case Create(name, body) => shows(body) && Named(records, name, shows) == []
    case Update(id, name, body) =>
      shows(body) && |Named(records, name, shows)| == 1 && Named(records, name, shows)[0].id == id
    case Set(_) => true
  }

  lemma UpdateIsOfItsName<B>(records: seq<Record<B>>, id: nat, name: string, shows: B -> bool)
    requires OwnIds(records) && |Named(records, name, shows)| == 1 && Named(records, name, shows)[0].id == id
    ensures forall r :: r in records && r.id == id ==> r.name == name && shows(r.body)
  {
    NamedAreRecords(records, name, shows);
    var mine := Named(records, name, shows)[0];
    assert mine in Named(records, name, shows);
    forall r | r in records && r.id == id ensures r == mine {
      var i, j :| 0 <= i < |records| && 0 <= j < |records| && records[i] == r && records[j] == mine;
    }
  }

  /** A planned change sent: its name has its body and nothing else, every other name what it had. */
  lemma MadeShows<B, S>(zone: Zone<B, S>, c: Change<B, S>, name: string, shows: B -> bool)
    requires OwnIds(zone.records) && Proper(zone.records, c, shows) && !c.Set?
    ensures var now := Named(Made(zone, c).records, name, shows);
      if name == c.name then |now| == 1 && now[0].body == c.body else now == Named(zone.records, name, shows)
    ensures Made(zone, c).setting == zone.setting
  {
    if c.Create? {
      NamedAfterCreate(zone.records, Record(NewId(zone.records), c.name, c.body), name, shows);
    } else {
      UpdateIsOfItsName(zone.records, c.id, c.name, shows);
      NamedAfterUpdate(zone.records, c.id, c.body, name, c.name, shows);
      NamedAreRecords(zone.records, name, shows);
      if name != c.name {
        var named := Named(zone.records, name, shows);
        forall r | r in named ensures r.id != c.id {}
        assert Updated(named, c.id, c.name, c.body) == named;
      }
    }
  }

  /** A record of another name is left as it is. */
  lemma OtherStays<B, S>(zone: Zone<B, S>, c: Change<B, S>, r: Record<B>, shows: B -> bool)
    requires OwnIds(zone.records) && Proper(zone.records, c, shows) && (c.Set? || r.name != c.name)
    ensures r in Made(zone, c).records <==> r in zone.records
  {
    if c.Update? {
      UpdateIsOfItsName(zone.records, c.id, c.name, shows);
      var now := Made(zone, c).records;
      if r in zone.records {
        var i :| 0 <= i < |zone.records| && zone.records[i] == r;
        assert now[i] == r;
      }
    }
  }
}

/** The platform zone on Cloudflare: what a run would change, a run cut short, and a repoint
    (scripts/edge/edge_zone.py). */
module EdgeZone {
  import opened ZoneStore
  import opened Wrappers
  import opened Strings

  datatype Body = Body(kind: string, content: string, proxied: bool)

  type Fallback = Option<string>          // the Custom Hostnames fallback origin
  type Cloudflare = Zone<Body, Fallback>
  type Request = Change<Body, Fallback>

  // A record that can hold an address.
  function Shown(): Body -> bool { (b: Body) => b.kind in {"A", "AAAA", "CNAME"} }

  // --- The plan ----------------------------------------------------------------

  /** _one: at most one, else nothing is guessed. */
  function One(records: seq<Record<Body>>, name: string): Result<Option<Record<Body>>> {
    var found := Named(records, name, Shown());
    if |found| > 1 then Refused else Ok(if found == [] then None else Some(found[0]))
  }

  /** _want */
  function Want(current: Option<Record<Body>>, name: string, body: Body): seq<Request> {
    if current.None? then [Create(name, body)]
    else if current.value.body != body then [Update(current.value.id, name, body)] else []
  }

  datatype Wish = Wish(domain: string, fallback: string, address: Option<string>)

  function Wildcard(w: Wish): string { "*.edge." + w.domain }

  predicate Sensible(w: Wish) {
    EndsWith(w.fallback, "." + w.domain) && !EndsWith(w.fallback, ".edge." + w.domain)
  }

  function OriginChange(records: seq<Record<Body>>, w: Wish, ipv4: string -> Option<string>): Result<seq<Request>> {
    var origin := One(records, w.fallback);
    if origin.Refused? then Refused else
    if w.address.Some? then
      var ip := ipv4(w.address.value);
      if ip.None? then Refused else Ok(Want(origin.value, w.fallback, Body("A", ip.value, true)))
    else if origin.value.None? then Refused else
    var r := origin.value.value;
    Ok(if r.body.proxied then [] else [Update(r.id, w.fallback, r.body.(proxied := true))])
  }

  function WildcardChange(records: seq<Record<Body>>, w: Wish): Result<seq<Request>> {
    var current := One(records, Wildcard(w));
    if current.Refused? then Refused else Ok(Want(current.value, Wildcard(w), Body("CNAME", w.fallback, true)))
  }

  function FallbackChange(setting: Fallback, w: Wish): seq<Request> {
    if setting == Some(w.fallback) then [] else [Set(Some(w.fallback))]
  }

  /** plan: the origin's record, the wildcard's and the fallback setting, each only if it differs. */
  function Plan(zone: Cloudflare, w: Wish, ipv4: string -> Option<string>): Result<seq<Request>> {
    var origin, wildcard := OriginChange(zone.records, w, ipv4), WildcardChange(zone.records, w);
    if !Sensible(w) || origin.Refused? || wildcard.Refused? then Refused
    else Ok(origin.value + wildcard.value + FallbackChange(zone.setting, w))
  }

  /** The three things the zone needs, said of the zone alone. */
  predicate Ready(zone: Cloudflare, w: Wish, ipv4: string -> Option<string>) {
    var origin, wildcard := Named(zone.records, w.fallback, Shown()), Named(zone.records, Wildcard(w), Shown());
    && |origin| == 1 && origin[0].body.proxied
    && (w.address.Some? ==> origin[0].body.kind == "A" && Some(origin[0].body.content) == ipv4(w.address.value))
    && |wildcard| == 1 && wildcard[0].body == Body("CNAME", w.fallback, true)
    && zone.setting == Some(w.fallback)
  }

  /** Nothing is left to change exactly when the zone is ready. */
  lemma NothingToChangeIff(zone: Cloudflare, w: Wish, ipv4: string -> Option<string>)
    requires Sensible(w)
    ensures Plan(zone, w, ipv4) == Ok([]) <==> Ready(zone, w, ipv4)
  {
  }

  // --- Runs of `apply` ---------------------------------------------------------------

  lemma NamesDiffer(w: Wish)
    requires Sensible(w)
    ensures w.fallback != Wildcard(w)
  {
    assert Wildcard(w) == "*" + (".edge." + w.domain);
    assert EndsWith(Wildcard(w), ".edge." + w.domain);
  }

  lemma OriginSent(zone: Cloudflare, w: Wish, ipv4: string -> Option<string>)
    requires OwnIds(zone.records) && Sensible(w)
    requires OriginChange(zone.records, w, ipv4).Ok? && OriginChange(zone.records, w, ipv4).value != []
    ensures var c := OriginChange(zone.records, w, ipv4).value[0]; var now := Made(zone, c);
      && OriginChange(zone.records, w, ipv4) == Ok([c])
      && !c.Set? && c.name == w.fallback && Proper(zone.records, c, Shown())
      && OriginChange(now.records, w, ipv4) == Ok([])
      && WildcardChange(now.records, w) == WildcardChange(zone.records, w) && now.setting == zone.setting
  {
    NamesDiffer(w);
    NamedAreRecords(zone.records, w.fallback, Shown());
    var c := OriginChange(zone.records, w, ipv4).value[0];
    MadeShows(zone, c, w.fallback, Shown());
    MadeShows(zone, c, Wildcard(w), Shown());
  }

  lemma WildcardSent(zone: Cloudflare, w: Wish, ipv4: string -> Option<string>)
    requires OwnIds(zone.records) && Sensible(w)
    requires WildcardChange(zone.records, w).Ok? && WildcardChange(zone.records, w).value != []
    ensures var c := WildcardChange(zone.records, w).value[0]; var now := Made(zone, c);
      && WildcardChange(zone.records, w) == Ok([c])
      && !c.Set? && c.name == Wildcard(w) && Proper(zone.records, c, Shown())
      && WildcardChange(now.records, w) == Ok([])
      && OriginChange(now.records, w, ipv4) == OriginChange(zone.records, w, ipv4) && now.setting == zone.setting
  {
    NamesDiffer(w);
    NamedAreRecords(zone.records, Wildcard(w), Shown());
    var c := WildcardChange(zone.records, w).value[0];
    MadeShows(zone, c, w.fallback, Shown());
    MadeShows(zone, c, Wildcard(w), Shown());
  }

  lemma OneSent(zone: Cloudflare, w: Wish, ipv4: string -> Option<string>)
    requires OwnIds(zone.records) && Plan(zone, w, ipv4).Ok? && Plan(zone, w, ipv4).value != []
    ensures var c := Plan(zone, w, ipv4).value[0];
      && Proper(zone.records, c, Shown()) && (c.Set? || c.name == w.fallback || c.name == Wildcard(w))
      && Plan(Made(zone, c), w, ipv4) == Ok(Plan(zone, w, ipv4).value[1..])
  {
    var origin, wildcard := OriginChange(zone.records, w, ipv4).value, WildcardChange(zone.records, w).value;
    if origin != [] { OriginSent(zone, w, ipv4); } else if wildcard != [] { WildcardSent(zone, w, ipv4); }
    DropsFirst(origin, wildcard, FallbackChange(zone.setting, w));
    assert |origin| == 1 ==> origin[1..] == [];
  }

  /** A send cut off after any request leaves a zone whose plan is exactly the requests not yet made;
      after the last one there is nothing to change. */
  lemma {:induction false} PlanResumes(zone: Cloudflare, w: Wish, ipv4: string -> Option<string>, sent: nat)
    requires OwnIds(zone.records) && Plan(zone, w, ipv4).Ok? && sent <= |Plan(zone, w, ipv4).value|
    ensures OwnIds(AllMade(zone, Plan(zone, w, ipv4).value[..sent]).records)
    ensures Plan(AllMade(zone, Plan(zone, w, ipv4).value[..sent]), w, ipv4) == Ok(Plan(zone, w, ipv4).value[sent..])
    decreases sent
  {
    var changes := Plan(zone, w, ipv4).value;
    if sent > 0 {
      OneSent(zone, w, ipv4);
      OwnIdsKept(zone, changes[0]);
      PlanResumes(Made(zone, changes[0]), w, ipv4, sent - 1);
      SentOne(zone, changes, sent);
    } else {
      assert changes[..0] == [] && changes[0..] == changes;
    }
  }

  /** A whole run of any plan it accepts leaves the zone ready. */
  lemma ApplyMakesReady(zone: Cloudflare, w: Wish, ipv4: string -> Option<string>)
    requires OwnIds(zone.records) && Plan(zone, w, ipv4).Ok?
    ensures Ready(AllMade(zone, Plan(zone, w, ipv4).value), w, ipv4)
  {
    var changes := Plan(zone, w, ipv4).value;
    PlanResumes(zone, w, ipv4, |changes|);
    assert changes[..|changes|] == changes && changes[|changes|..] == [];
    NothingToChangeIff(AllMade(zone, changes), w, ipv4);
  }

  /** No record of another name is ever touched. */
  lemma {:induction false} OthersStay(zone: Cloudflare, w: Wish, ipv4: string -> Option<string>, sent: nat, r: Record<Body>)
    requires OwnIds(zone.records) && Plan(zone, w, ipv4).Ok? && sent <= |Plan(zone, w, ipv4).value|
    requires r.name != w.fallback && r.name != Wildcard(w)
    ensures r in AllMade(zone, Plan(zone, w, ipv4).value[..sent]).records <==> r in zone.records
    decreases sent
  {
    var changes := Plan(zone, w, ipv4).value;
    if sent > 0 {
      OneSent(zone, w, ipv4);
      OwnIdsKept(zone, changes[0]);
      OtherStays(zone, changes[0], r, Shown());
      OthersStay(Made(zone, changes[0]), w, ipv4, sent - 1, r);
      SentOne(zone, changes, sent);
    } else {
      assert changes[..0] == [];
    }
  }

  // --- Repointing ----------------------------------------------------------------------

  predicate On(r: Record<Body>, address: string) { r.body.kind == "A" && r.body.content == address }

  function Moving(records: seq<Record<Body>>, address: string): seq<Record<Body>> {
    if records == [] then [] else
    var last, before := records[|records| - 1], Moving(records[..|records| - 1], address);
    if On(last, address) then before + [last] else before
  }

  function Moves(moving: seq<Record<Body>>, address: string): seq<Request> {
    seq(|moving|, i requires 0 <= i < |moving| =>
      Update(moving[i].id, moving[i].name, moving[i].body.(content := address)))
  }

  /** repoint: every A record on the first address, its proxy state kept. */
  function Repoint(records: seq<Record<Body>>, from: string, to: string): Result<seq<Request>> {
    var moving := Moving(records, from);
    if from == to || moving == [] then Refused else Ok(Moves(moving, to))
  }

  lemma {:induction false} MovingSplit(a: seq<Record<Body>>, b: seq<Record<Body>>, address: string)
    ensures Moving(a + b, address) == Moving(a, address) + Moving(b, address)
    decreases |b|
  {
    if b == [] {
      assert a + b == a;
    } else {
      assert (a + b)[..|a + b| - 1] == a + b[..|b| - 1];
      MovingSplit(a, b[..|b| - 1], address);
    }
  }

  // Where the first record still on the address is.
  lemma FirstMoving(records: seq<Record<Body>>, address: string) returns (i: nat)
    requires Moving(records, address) != []
    ensures i < |records| && On(records[i], address)
    ensures Moving(records[..i], address) == [] && Moving(records, address) == [records[i]] + Moving(records[i + 1..], address)
  {
    i := 0;
    assert records[..|records|] == records;
    while i < |records| && !On(records[i], address)
      invariant i <= |records| && Moving(records[..i], address) == []
    {
      assert records[..i + 1][..i] == records[..i];
      i := i + 1;
    }
    assert records == records[..i] + [records[i]] + records[i + 1..];
    MovingSplit(records[..i] + [records[i]], records[i + 1..], address);
    MovingSplit(records[..i], [records[i]], address);
    assert [records[i]][..0] == [];
  }

  lemma OneMoved(records: seq<Record<Body>>, from: string, to: string)
    requires OwnIds(records) && from != to && Moving(records, from) != []
    ensures var r := Moving(records, from)[0];
      Moving(Updated(records, r.id, r.name, r.body.(content := to)), from) == Moving(records, from)[1..]
  {
    var i := FirstMoving(records, from);
    var r := records[i];
    var moved := Record(r.id, r.name, r.body.(content := to));
    assert Updated(records, r.id, r.name, moved.body) == records[..i] + [moved] + records[i + 1..];
    MovingSplit(records[..i] + [moved], records[i + 1..], from);
    MovingSplit(records[..i], [moved], from);
    assert [moved][..0] == [];
  }

  /** A repoint cut off after any request resumes with exactly what is left; once nothing is left, a
      further one is refused. */
  lemma {:induction false} RepointResumes(zone: Cloudflare, from: string, to: string, sent: nat)
    requires OwnIds(zone.records) && Repoint(zone.records, from, to).Ok?
    requires sent <= |Repoint(zone.records, from, to).value|
    ensures var changes := Repoint(zone.records, from, to).value;
      Repoint(AllMade(zone, changes[..sent]).records, from, to) ==
        if sent < |changes| then Ok(changes[sent..]) else Refused
    decreases sent
  {
    var changes, moving := Repoint(zone.records, from, to).value, Moving(zone.records, from);
    if sent == 0 {
      assert changes[..0] == [] && changes[0..] == changes;
    } else {
      OneMoved(zone.records, from, to);
      OwnIdsKept(zone, changes[0]);
      SentOne(zone, changes, sent);
      assert Moves(moving, to)[1..] == Moves(moving[1..], to);
      if moving[1..] == [] {
        assert changes[1..][..0] == [];
      } else {
        RepointResumes(Made(zone, changes[0]), from, to, sent - 1);
      }
    }
  }
}

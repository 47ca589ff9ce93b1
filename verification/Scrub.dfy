/** Staging's copy of the panels, scrubbed, and the guard that was written apart from it
    (tools/k8s_staging_scrub.py). */
module Scrub {
  import opened Wrappers

  // A column that names where a panel is: a URL, read, or any other text.
  datatype Address =
    | Url(scheme: string, host: Option<string>, port: Option<string>, rest: string)
    | Text(text: string)

  datatype Row = Row(
    id: string, api: Option<Address>, client: Option<Address>, ip: Option<Address>,
    known: seq<string>, ovpn: bool, login: bool, radius: bool, retired: bool)

  // A vault row: a panel's login under its label, or a migration's source login.
  datatype Login = PanelLogin(name: string) | SourceLogin

  // Published port -> the local panel's address and its own port.
  type Local = map<string, (string, string)>

  function Addresses(local: Local): set<string> { set p | p in local :: local[p].0 }

  const WIPED_ADDRESS := "192.0.2.1"      // TEST-NET-1, section 3 of RFC 5737

  function WipedUrl(id: string): Address { Url("http", Some(WIPED_ADDRESS), None, "/wiped/" + id) }

  predicate Names(a: Option<Address>) { a.Some? && a.value != Text("") }

  /** host_of */
  function HostOf(a: Address): Option<string> { if a.Url? then a.host else Some(a.text) }

  // --- The plan ------------------------------------------------------------------

  /** repoint: the URL moved to its local copy, or none when it names no test panel. */
  function Repoint(url: Option<Address>, hosts: set<string>, local: Local): Option<Address> {
    if !Names(url) || !url.value.Url? then None else
    var u := url.value;
    if u.scheme != "http" || u.host.None? || u.host.value !in hosts || u.port.None? || u.port.value !in local then None
    else Some(u.(host := Some(local[u.port.value].0), port := Some(local[u.port.value].1)))
  }

  datatype Columns = Columns(api: Address, client: Option<Address>, ip: Option<Address>)

  /** What a row is pointed at; none when it is wiped. */
  function Pointing(r: Row, hosts: set<string>, local: Local): Option<Columns> {
    var api := if r.retired then None else Repoint(r.api, hosts, local);
    if api.None? then None else
    Some(Columns(api.value, Repoint(r.client, hosts, local),
                 if Names(r.ip) then (if api.value.host.Some? then Some(Text(api.value.host.value)) else None) else None))
  }

  ghost predicate OwnIds(rows: seq<Row>) { forall i, j :: 0 <= i < j < |rows| ==> rows[i].id != rows[j].id }

  /** plan: each panel of the test panels' server in service is pointed at its copy, every other one
      is wiped. */
  method Plan(rows: seq<Row>, hosts: set<string>, local: Local) returns (pointed: map<string, Columns>, wiped: seq<string>)
    requires OwnIds(rows)
    ensures forall r :: r in rows ==>
      if Pointing(r, hosts, local).Some? then r.id in pointed && pointed[r.id] == Pointing(r, hosts, local).value
      else r.id !in pointed && r.id in wiped
    ensures forall id :: id in pointed || id in wiped ==> exists r :: r in rows && r.id == id
  {
    pointed, wiped := map[], [];
    for i := 0 to |rows|
      invariant forall j :: 0 <= j < i ==>
        if Pointing(rows[j], hosts, local).Some?
        then rows[j].id in pointed && pointed[rows[j].id] == Pointing(rows[j], hosts, local).value
        else rows[j].id !in pointed && rows[j].id in wiped
      invariant forall id :: id in pointed || id in wiped ==> exists j :: 0 <= j < i && rows[j].id == id
    {
      var columns := Pointing(rows[i], hosts, local);
      if columns.Some? {
        pointed := pointed[rows[i].id := columns.value];
      } else {
        wiped := wiped + [rows[i].id];
      }
    }
  }

  // --- The statements ---------------------------------------------------------------

  function Pointed(r: Row, c: Columns): Row {
    r.(api := Some(c.api), client := c.client, ip := c.ip, known := [], ovpn := false)
  }

  function Wiped(r: Row): Row {
    r.(api := if r.api.None? then None else Some(WipedUrl(r.id)), client := None,
       ip := if r.ip.None? then None else Some(Text(WIPED_ADDRESS)),
       known := [], ovpn := false, login := false, radius := false, retired := true)
  }

  function Written(r: Row, pointed: map<string, Columns>): Row {
    if r.id in pointed then Pointed(r, pointed[r.id]) else Wiped(r)
  }

  function Labels(id: string): set<string> { {"panel:" + id, "panel:" + id + ":radius"} }

  predicate KeptLogin(l: Login, pointed: set<string>) {
    l.PanelLogin? && exists id :: id in pointed && l.name in Labels(id)
  }

  class Copy {
    var rows: seq<Row>
    var vault: seq<Login>

    constructor (rows: seq<Row>, vault: seq<Login>)
      ensures this.rows == rows && this.vault == vault
    {
      this.rows, this.vault := rows, vault;
    }

    /** panels_sql, one transaction: a pointed panel's new addresses, one UPDATE each; every other
        panel wiped and archived; every login but the pointed panels' gone. */
    method Apply(pointed: map<string, Columns>)
      modifies this
      ensures |rows| == |old(rows)|
      ensures forall i :: 0 <= i < |rows| ==> rows[i] == Written(old(rows)[i], pointed)
      ensures vault == Keep(old(vault), pointed.Keys)
    {
      var todo := pointed.Keys;
      while todo != {}
        invariant todo <= pointed.Keys && |rows| == |old(rows)| && vault == old(vault)
        invariant forall i :: 0 <= i < |rows| ==> rows[i].id == old(rows)[i].id
        invariant forall i :: 0 <= i < |rows| && old(rows)[i].id in pointed.Keys - todo ==>
          rows[i] == Written(old(rows)[i], pointed)
        invariant forall i :: 0 <= i < |rows| && old(rows)[i].id !in pointed.Keys - todo ==> rows[i] == old(rows)[i]
        decreases |todo|
      {
        var id :| id in todo;
        rows := seq(|rows|, i requires 0 <= i < |rows| reads this => if rows[i].id == id then Pointed(rows[i], pointed[id]) else rows[i]);
        todo := todo - {id};
      }
      rows := seq(|rows|, i requires 0 <= i < |rows| reads this => if rows[i].id in pointed then rows[i] else Wiped(rows[i]));
      vault := Keep(vault, pointed.Keys);
    }
  }

  function Keep(vault: seq<Login>, pointed: set<string>): seq<Login> {
    if vault == [] then [] else
    if KeptLogin(vault[0], pointed) then [vault[0]] + Keep(vault[1..], pointed) else Keep(vault[1..], pointed)
  }

  lemma {:induction false} KeepKeeps(vault: seq<Login>, pointed: set<string>)
    ensures forall l :: l in Keep(vault, pointed) <==> l in vault && KeptLogin(l, pointed)
  {
    if vault != [] {
      KeepKeeps(vault[1..], pointed);
    }
  }

  // --- The guard ------------------------------------------------------------------------

  datatype Finding =
    | RealAddress(id: string) | RealKnown(id: string, address: string) | RealProfile(id: string)
    | WipedWithLogin(id: string) | WipedInService(id: string) | StrayLogins(labels: set<string>) | SourceLogins(count: nat)

  predicate Allowed(a: Option<Address>, local: Local) {
    Names(a) ==> HostOf(a.value).Some? && HostOf(a.value).value in Addresses(local) + {WIPED_ADDRESS}
  }

  // It names a local panel, and so may keep its login.
  predicate Live(r: Row, local: Local) {
    Names(r.api) && HostOf(r.api.value).Some? && HostOf(r.api.value).value in Addresses(local)
  }

  predicate NamesNoReal(r: Row, local: Local) {
    && Allowed(r.api, local) && Allowed(r.client, local) && Allowed(r.ip, local)
    && (forall a :: a in r.known ==> a in Addresses(local)) && !r.ovpn
  }

  // What the guard lets pass, said of the copy alone.
  ghost predicate Clean(rows: seq<Row>, local: Local, vault: seq<Login>) {
    && (forall r :: r in rows ==> NamesNoReal(r, local))
    && (forall r :: r in rows && !Live(r, local) ==> !r.login && !r.radius && r.retired)
    && (forall l :: l in vault ==> l.PanelLogin? && exists r :: r in rows && Live(r, local) && l.name in Labels(r.id))
  }

  method RowFindings(r: Row, local: Local) returns (named: seq<Finding>)
    ensures named == [] <==> NamesNoReal(r, local)
  {
    named := [];
    if !Allowed(r.api, local) { named := named + [RealAddress(r.id)]; }
    if !Allowed(r.client, local) { named := named + [RealAddress(r.id)]; }
    if !Allowed(r.ip, local) { named := named + [RealAddress(r.id)]; }
    for i := 0 to |r.known|
      invariant named == [] <==>
        Allowed(r.api, local) && Allowed(r.client, local) && Allowed(r.ip, local) &&
        forall j :: 0 <= j < i ==> r.known[j] in Addresses(local)
    {
      if r.known[i] !in Addresses(local) { named := named + [RealKnown(r.id, r.known[i])]; }
    }
    if r.ovpn { named := named + [RealProfile(r.id)]; }
  }

  // A row as the guard passes it.
  predicate RowPasses(r: Row, local: Local) {
    NamesNoReal(r, local) && (!Live(r, local) ==> !r.login && !r.radius && r.retired)
  }

  /** offenders: nothing is found exactly when the copy is clean. */
  method Offenders(rows: seq<Row>, local: Local, vault: seq<Login>) returns (found: seq<Finding>)
    ensures found == [] <==> Clean(rows, local, vault)
  {
    found := [];
    var live: set<string> := {};
    for i := 0 to |rows|
      invariant found == [] <==> forall j :: 0 <= j < i ==> RowPasses(rows[j], local)
      invariant found == [] ==> forall l :: l in live <==> exists j :: 0 <= j < i && Live(rows[j], local) && l in Labels(rows[j].id)
    {
      var r := rows[i];
      var named := RowFindings(r, local);
      found := found + named;
      if named != [] || Live(r, local) {
        live := live + Labels(r.id);
      } else if r.login || r.radius {
        found := found + [WipedWithLogin(r.id)];
      } else if !r.retired {
        found := found + [WipedInService(r.id)];
      }
    }
    ghost var rowsPass := found == [];
    var stray := set l | l in vault && l.PanelLogin? && l.name !in live :: l.name;
    var sources := Sources(vault);
    SourcesCounted(vault);
    if stray != {} { found := found + [StrayLogins(stray)]; }
    if sources > 0 { found := found + [SourceLogins(sources)]; }
    GuardMeans(rows, local, vault, live, rowsPass, stray, sources);
  }

  function Sources(vault: seq<Login>): nat {
    if vault == [] then 0 else (if vault[0].SourceLogin? then 1 else 0) + Sources(vault[1..])
  }

  lemma {:induction false} SourcesCounted(vault: seq<Login>)
    ensures Sources(vault) == 0 <==> forall l :: l in vault ==> l.PanelLogin?
  {
    if vault != [] {
      SourcesCounted(vault[1..]);
      assert vault[0] in vault && vault == [vault[0]] + vault[1..];
    }
  }

  lemma GuardMeans(rows: seq<Row>, local: Local, vault: seq<Login>, live: set<string>, rowsPass: bool, stray: set<string>,
                   sources: nat)
    requires rowsPass <==> forall j :: 0 <= j < |rows| ==> RowPasses(rows[j], local)
    requires rowsPass ==> forall l :: l in live <==> exists j :: 0 <= j < |rows| && Live(rows[j], local) && l in Labels(rows[j].id)
    requires stray == set l | l in vault && l.PanelLogin? && l.name !in live :: l.name
    requires sources == 0 <==> forall l :: l in vault ==> l.PanelLogin?
    ensures rowsPass && stray == {} && sources == 0 <==> Clean(rows, local, vault)
  {
    if Clean(rows, local, vault) {
      forall l | l in vault && l.PanelLogin? ensures l.name in live {
        var r :| r in rows && Live(r, local) && l.name in Labels(r.id);
        var j :| 0 <= j < |rows| && rows[j] == r;
      }
    }
    if rowsPass && stray == {} && sources == 0 {
      forall l | l in vault ensures exists r :: r in rows && Live(r, local) && l.name in Labels(r.id) {
        assert l.name !in stray;
        var j :| 0 <= j < |rows| && Live(rows[j], local) && l.name in Labels(rows[j].id);
      }
    }
  }

  // --- The scrub passes the guard ---------------------------------------------------------

  ghost function Scrubbed(r: Row, hosts: set<string>, local: Local): Row {
    var c := Pointing(r, hosts, local);
    if c.Some? then Pointed(r, c.value) else Wiped(r)
  }

  lemma RepointedIsLocal(url: Option<Address>, hosts: set<string>, local: Local)
    ensures var to := Repoint(url, hosts, local);
      to.Some? ==> to.value.Url? && to.value.host.Some? && to.value.host.value in Addresses(local)
  {
    var to := Repoint(url, hosts, local);
    if to.Some? {
      assert url.value.port.value in local;
    }
  }

  lemma ScrubbedRowPasses(r: Row, hosts: set<string>, local: Local)
    ensures RowPasses(Scrubbed(r, hosts, local), local)
    ensures Pointing(r, hosts, local).Some? ==> Live(Scrubbed(r, hosts, local), local)
  {
    RepointedIsLocal(r.api, hosts, local);
    RepointedIsLocal(r.client, hosts, local);
  }

  ghost function ScrubbedAll(rows: seq<Row>, hosts: set<string>, local: Local): seq<Row> {
    seq(|rows|, i requires 0 <= i < |rows| => Scrubbed(rows[i], hosts, local))
  }

  ghost function PointedIds(rows: seq<Row>, hosts: set<string>, local: Local): set<string> {
    set r | r in rows && Pointing(r, hosts, local).Some? :: r.id
  }

  /** For every copy of production's panels and vault, whatever the local panels: what the scrub
      leaves is what the guard, written apart from it, asks for. */
  lemma ScrubbedIsClean(rows: seq<Row>, hosts: set<string>, local: Local, vault: seq<Login>)
    ensures Clean(ScrubbedAll(rows, hosts, local), local, Keep(vault, PointedIds(rows, hosts, local)))
  {
    var now, kept := ScrubbedAll(rows, hosts, local), Keep(vault, PointedIds(rows, hosts, local));
    forall r | r in now ensures RowPasses(r, local) {
      var i :| 0 <= i < |rows| && now[i] == r;
      ScrubbedRowPasses(rows[i], hosts, local);
    }
    KeepKeeps(vault, PointedIds(rows, hosts, local));
    forall l | l in kept ensures l.PanelLogin? && exists r :: r in now && Live(r, local) && l.name in Labels(r.id) {
      var id :| id in PointedIds(rows, hosts, local) && l.name in Labels(id);
      var r :| r in rows && Pointing(r, hosts, local).Some? && r.id == id;
      var i :| 0 <= i < |rows| && rows[i] == r;
      ScrubbedRowPasses(r, hosts, local);
      assert now[i] in now;
    }
  }

  /** scrub, then guard: nothing is found, each pointed panel keeping its login and its place. */
  method ScrubThenGuard(copy: Copy, hosts: set<string>, local: Local) returns (found: seq<Finding>)
    requires OwnIds(copy.rows)
    modifies copy
    ensures found == []
    ensures copy.rows == ScrubbedAll(old(copy.rows), hosts, local)
    ensures copy.vault == Keep(old(copy.vault), PointedIds(old(copy.rows), hosts, local))
  {
    ghost var rows := copy.rows;
    ScrubbedIsClean(rows, hosts, local, copy.vault);
    var pointed, wiped := Plan(copy.rows, hosts, local);
    PlanIsPointing(rows, hosts, local, pointed, wiped);
    copy.Apply(pointed);
    assert copy.rows == ScrubbedAll(rows, hosts, local);
    found := Offenders(copy.rows, local, copy.vault);
  }

  lemma PlanIsPointing(rows: seq<Row>, hosts: set<string>, local: Local, pointed: map<string, Columns>, wiped: seq<string>)
    requires forall r :: r in rows ==>
      if Pointing(r, hosts, local).Some? then r.id in pointed && pointed[r.id] == Pointing(r, hosts, local).value
      else r.id !in pointed && r.id in wiped
    requires forall id :: id in pointed || id in wiped ==> exists r :: r in rows && r.id == id
    ensures pointed.Keys == PointedIds(rows, hosts, local)
    ensures forall r :: r in rows ==> Written(r, pointed) == Scrubbed(r, hosts, local)
  {
    forall id | id in pointed ensures id in PointedIds(rows, hosts, local) {
      var r :| r in rows && r.id == id;
    }
  }
}

/** The bounded walk over the unit graph, its frontier ordered by a hypothesis (tools/where.py). */
module Walk {
  import Sets

  datatype Edge = Edge(to: string, via: string, why: string)
  type Graph = map<string, seq<Edge>>

  datatype Unit = Unit(name: string, dependsOn: seq<string>)

  // One line of the plan.
  datatype Stop = Stop(unit: string, via: string, why: string, depth: nat)

  function Out(g: Graph, unit: string): seq<Edge> { if unit in g then g[unit] else [] }

  // --- The graph -----------------------------------------------------------------

  function Depends(dependsOn: seq<string>): seq<Edge> {
    seq(|dependsOn|, i requires 0 <= i < |dependsOn| => Edge(dependsOn[i], "depends_on", ""))
  }

  // What the units of one name depend on, in listing order.
  function DependsOf(units: seq<Unit>, name: string): seq<Edge> {
    if units == [] then [] else
    var before, last := DependsOf(units[..|units| - 1], name), units[|units| - 1];
    if last.name == name then before + Depends(last.dependsOn) else before
  }

  function RuntimeOf(runtime: seq<(string, Edge)>, name: string): seq<Edge> {
    if runtime == [] then [] else
    var before, last := RuntimeOf(runtime[..|runtime| - 1], name), runtime[|runtime| - 1];
    if last.0 == name then before + [last.1] else before
  }

  /** build_graph: a unit's declared dependencies, then what the runtime map adds. */
  method BuildGraph(units: seq<Unit>, runtime: seq<(string, Edge)>) returns (known: set<string>, g: Graph)
    ensures forall n :: n in known <==> exists u :: u in units && u.name == n
    ensures forall n :: Out(g, n) == DependsOf(units, n) + RuntimeOf(runtime, n)
  {
    known := set u | u in units :: u.name;
    g := AddDepends(units);
    g := AddRuntime(g, units, runtime);
  }

  method AddDepends(units: seq<Unit>) returns (g: Graph)
    ensures forall n :: Out(g, n) == DependsOf(units, n)
  {
    g := map[];
    for i := 0 to |units|
      invariant forall n :: Out(g, n) == DependsOf(units[..i], n)
    {
      var u := units[i];
      assert units[..i + 1][..i] == units[..i] && units[..i + 1][i] == u;
      var next := Out(g, u.name) + Depends(u.dependsOn);
      g := if u.dependsOn != [] then g[u.name := next] else g;
      assert Out(g, u.name) == next;
    }
    assert units[..|units|] == units;
  }

  method AddRuntime(start: Graph, units: seq<Unit>, runtime: seq<(string, Edge)>) returns (g: Graph)
    requires forall n :: Out(start, n) == DependsOf(units, n)
    ensures forall n :: Out(g, n) == DependsOf(units, n) + RuntimeOf(runtime, n)
  {
    g := start;
    for i := 0 to |runtime|
      invariant forall n :: Out(g, n) == DependsOf(units, n) + RuntimeOf(runtime[..i], n)
    {
      var (from, e) := runtime[i];
      assert runtime[..i + 1][..i] == runtime[..i] && runtime[..i + 1][i] == (from, e);
      g := g[from := Out(g, from) + [e]];
    }
    assert runtime[..|runtime|] == runtime;
  }

  // --- Distance --------------------------------------------------------------------

  ghost predicate Leads(g: Graph, from: string, to: string) { exists e :: e in Out(g, from) && e.to == to }

  /** Within so many hops of the entry. */
  ghost predicate Reach(g: Graph, entry: string, unit: string, hops: nat)
    decreases hops
  {
    if hops == 0 then unit == entry else
    Reach(g, entry, unit, hops - 1) || exists u :: Reach(g, entry, u, hops - 1) && Leads(g, u, unit)
  }

  // At its own distance, and no nearer.
  ghost predicate AtDistance(g: Graph, entry: string, unit: string, depth: nat) {
    Reach(g, entry, unit, depth) && (depth == 0 || !Reach(g, entry, unit, depth - 1))
  }

  lemma {:induction false} ReachGrows(g: Graph, entry: string, unit: string, m: nat, n: nat)
    requires m <= n && Reach(g, entry, unit, m)
    ensures Reach(g, entry, unit, n)
  {
    if m < n {
      ReachGrows(g, entry, unit, m, n - 1);
    }
  }

  lemma OneHop(g: Graph, entry: string, unit: string, e: Edge, n: nat)
    requires Reach(g, entry, unit, n) && e in Out(g, unit)
    ensures Reach(g, entry, e.to, n + 1)
  {
    assert Leads(g, unit, e.to);
  }

  lemma OneHopBack(g: Graph, entry: string, unit: string, n: nat) returns (u: string, e: Edge)
    requires n > 0 && Reach(g, entry, unit, n) && !Reach(g, entry, unit, n - 1)
    ensures Reach(g, entry, u, n - 1) && e in Out(g, u) && e.to == unit
  {
    u :| Reach(g, entry, u, n - 1) && Leads(g, u, unit);
    e :| e in Out(g, u) && e.to == unit;
  }

  lemma DistanceIsOne(g: Graph, entry: string, unit: string, m: nat, n: nat)
    requires AtDistance(g, entry, unit, m) && AtDistance(g, entry, unit, n)
    ensures m == n
  {
    if m < n { ReachGrows(g, entry, unit, m, n - 1); }
    if n < m { ReachGrows(g, entry, unit, n, m - 1); }
  }

  function Units(stops: seq<Stop>): set<string> { set s | s in stops :: s.unit }

  predicate EachOnce(stops: seq<Stop>) { forall i, j :: 0 <= i < j < |stops| ==> stops[i].unit != stops[j].unit }

  ghost predicate Nearest(g: Graph, entry: string, stops: seq<Stop>) {
    forall s :: s in stops ==> AtDistance(g, entry, s.unit, s.depth)
  }

  predicate NearFirst(stops: seq<Stop>) { forall i, j :: 0 <= i < j < |stops| ==> stops[i].depth <= stops[j].depth }

  // Found through an edge of a unit one hop nearer.
  ghost predicate Led(g: Graph, entry: string, stops: seq<Stop>) {
    forall s :: s in stops && s.depth > 0 ==>
      exists u :: Reach(g, entry, u, s.depth - 1) && Edge(s.unit, s.via, s.why) in Out(g, u)
  }

  /** What a walk lists, whatever its order among units equally far. */
  ghost predicate IsWalk(g: Graph, entry: string, hops: nat, plan: seq<Stop>) {
    && EachOnce(plan) && (forall u :: u in Units(plan) <==> Reach(g, entry, u, hops))
    && Nearest(g, entry, plan) && NearFirst(plan) && Led(g, entry, plan)
  }

  /** A wrong hypothesis costs an ordering: two walks list the same units, each at the same depth. */
  lemma WalksDifferInOrderOnly(g: Graph, entry: string, hops: nat, a: seq<Stop>, b: seq<Stop>)
    requires IsWalk(g, entry, hops, a) && IsWalk(g, entry, hops, b)
    ensures |a| == |b| && forall s :: s in a ==> exists t :: t in b && t.unit == s.unit && t.depth == s.depth
  {
    UnitsCount(a);
    UnitsCount(b);
    assert Units(a) == Units(b);
    forall s | s in a ensures exists t :: t in b && t.unit == s.unit && t.depth == s.depth {
      assert s.unit in Units(b);
      var t :| t in b && t.unit == s.unit;
      DistanceIsOne(g, entry, s.unit, s.depth, t.depth);
    }
  }

  lemma {:induction false} UnitsCount(stops: seq<Stop>)
    requires EachOnce(stops)
    ensures |Units(stops)| == |stops|
  {
    if stops != [] {
      var front, last := stops[..|stops| - 1], stops[|stops| - 1];
      UnitsCount(front);
      assert Units(stops) == Units(front) + {last.unit};
    }
  }

  // --- Ordering a frontier -----------------------------------------------------------

  function Insert(rank: string -> int, s: Stop, sorted: seq<Stop>): seq<Stop> {
    if sorted == [] || rank(s.unit) >= rank(sorted[0].unit) then [s] + sorted
    else [sorted[0]] + Insert(rank, s, sorted[1..])
  }

  /** nxt.sort: stable, the best hits first. */
  function ByRank(rank: string -> int, stops: seq<Stop>): seq<Stop> {
    if stops == [] then [] else Insert(rank, stops[0], ByRank(rank, stops[1..]))
  }

  predicate BestFirst(rank: string -> int, stops: seq<Stop>) {
    forall i, j :: 0 <= i < j < |stops| ==> rank(stops[i].unit) >= rank(stops[j].unit)
  }

  lemma {:induction false} InsertedIsThere(rank: string -> int, s: Stop, sorted: seq<Stop>)
    ensures forall t :: t in Insert(rank, s, sorted) <==> t == s || t in sorted
    ensures |Insert(rank, s, sorted)| == |sorted| + 1
  {
    if !(sorted == [] || rank(s.unit) >= rank(sorted[0].unit)) {
      InsertedIsThere(rank, s, sorted[1..]);
    }
  }

  lemma {:induction false} InsertKeeps(rank: string -> int, s: Stop, sorted: seq<Stop>)
    requires BestFirst(rank, sorted) && EachOnce(sorted) && forall t :: t in sorted ==> t.unit != s.unit
    ensures BestFirst(rank, Insert(rank, s, sorted)) && EachOnce(Insert(rank, s, sorted))
  {
    if !(sorted == [] || rank(s.unit) >= rank(sorted[0].unit)) {
      var rest := Insert(rank, s, sorted[1..]);
      InsertKeeps(rank, s, sorted[1..]);
      InsertedIsThere(rank, s, sorted[1..]);
      forall t | t in rest ensures rank(t.unit) <= rank(sorted[0].unit) && t.unit != sorted[0].unit {
        if t != s {
          var i :| 0 <= i < |sorted| - 1 && sorted[1..][i] == t;
        }
      }
    }
  }

  /** The sort loses nothing and puts the hypothesis's hits first. */
  lemma {:induction false} ByRankPermutes(rank: string -> int, stops: seq<Stop>)
    requires EachOnce(stops)
    ensures BestFirst(rank, ByRank(rank, stops)) && EachOnce(ByRank(rank, stops))
    ensures forall t :: t in ByRank(rank, stops) <==> t in stops
    ensures |ByRank(rank, stops)| == |stops|
  {
    if stops != [] {
      ByRankPermutes(rank, stops[1..]);
      InsertedIsThere(rank, stops[0], ByRank(rank, stops[1..]));
      InsertKeeps(rank, stops[0], ByRank(rank, stops[1..]));
    }
  }

  // --- The walk ------------------------------------------------------------------------

  // The neighbours no one has seen, each where it first comes.
  function Fresh(edges: seq<Edge>, depth: nat, seen: set<string>): seq<Stop> {
    if edges == [] then [] else
    var before, e := Fresh(edges[..|edges| - 1], depth, seen), edges[|edges| - 1];
    if e.to in seen + Units(before) then before else before + [Stop(e.to, e.via, e.why, depth + 1)]
  }

  // What opening s adds, its best hits first.
  function Added(g: Graph, hops: nat, rank: string -> int, s: Stop, seen: set<string>): seq<Stop> {
    if s.depth < hops then ByRank(rank, Fresh(Out(g, s.unit), s.depth, seen)) else []
  }

  /** The order the hypothesis sets: each unit opened in turn, its unseen neighbours follow all that
      is listed. */
  function Grown(g: Graph, entry: string, hops: nat, rank: string -> int, count: nat): seq<Stop> {
    if count == 0 then [Stop(entry, "entry", "", 0)] else
    var before := Grown(g, entry, hops, rank, count - 1);
    if count > |before| then before else before + Added(g, hops, rank, before[count - 1], Units(before))
  }

  // Opening a unit: the neighbours no one has seen, each once.
  method Open(g: Graph, unit: string, depth: nat, seen: set<string>) returns (nxt: seq<Stop>, now: set<string>)
    ensures nxt == Fresh(Out(g, unit), depth, seen) && now == seen + Units(nxt)
  {
    nxt, now := [], seen;
    var edges := Out(g, unit);
    for i := 0 to |edges|
      invariant nxt == Fresh(edges[..i], depth, seen) && now == seen + Units(nxt)
    {
      var e := edges[i];
      assert edges[..i + 1][..i] == edges[..i] && edges[..i + 1][i] == e;
      if e.to !in now {
        var s := Stop(e.to, e.via, e.why, depth + 1);
        assert Units(nxt + [s]) == Units(nxt) + {e.to};
        nxt, now := nxt + [s], now + {e.to};
      }
    }
    assert edges[..|edges|] == edges;
  }

  lemma {:induction false} FreshAreEdges(edges: seq<Edge>, depth: nat, seen: set<string>)
    ensures forall s :: s in Fresh(edges, depth, seen) ==> s.depth == depth + 1 && Edge(s.unit, s.via, s.why) in edges
  {
    if edges != [] {
      FreshAreEdges(edges[..|edges| - 1], depth, seen);
    }
  }

  lemma UnitsOneMore(stops: seq<Stop>, s: Stop)
    requires EachOnce(stops) && s.unit !in Units(stops)
    ensures EachOnce(stops + [s]) && Units(stops + [s]) == Units(stops) + {s.unit}
  {
    forall t | t in stops ensures t.unit != s.unit { assert t.unit in Units(stops); }
  }

  lemma {:induction false} FreshAreUnseen(edges: seq<Edge>, depth: nat, seen: set<string>)
    ensures Units(Fresh(edges, depth, seen)) !! seen && EachOnce(Fresh(edges, depth, seen))
    ensures forall e :: e in edges ==> e.to in seen + Units(Fresh(edges, depth, seen))
  {
    if edges != [] {
      var front, e := edges[..|edges| - 1], edges[|edges| - 1];
      FreshAreUnseen(front, depth, seen);
      assert edges == front + [e];
      var before := Fresh(front, depth, seen);
      if e.to !in seen + Units(before) {
        UnitsOneMore(before, Stop(e.to, e.via, e.why, depth + 1));
      }
    }
  }

  /** What is opened is new, each unit once, found by an edge, and nothing an edge leads to is left. */
  lemma FreshIsNew(edges: seq<Edge>, depth: nat, seen: set<string>)
    ensures var nxt := Fresh(edges, depth, seen);
      && Units(nxt) !! seen && EachOnce(nxt)
      && (forall s :: s in nxt ==> s.depth == depth + 1 && Edge(s.unit, s.via, s.why) in edges)
      && (forall e :: e in edges ==> e.to in seen + Units(nxt))
  {
    FreshAreEdges(edges, depth, seen);
    FreshAreUnseen(edges, depth, seen);
  }

  // All there is to find.
  function Everything(g: Graph, entry: string): set<string> { {entry} + set u, e | u in g && e in g[u] :: e.to }

  // What is listed so far: the units seen, each once, nearest first.
  ghost predicate Listed(g: Graph, entry: string, hops: nat, all: seq<Stop>, seen: set<string>) {
    && EachOnce(all) && seen == Units(all) && Nearest(g, entry, all) && Led(g, entry, all) && NearFirst(all)
    && forall s :: s in all ==> s.depth <= hops
  }

  // The frontier is a ring and perhaps the start of the next; all within the ring has been seen.
  ghost predicate Ring(g: Graph, entry: string, frontier: seq<Stop>, seen: set<string>) {
    && (forall s :: s in frontier ==> frontier[0].depth <= s.depth <= frontier[0].depth + 1)
    && (frontier != [] ==> AllSeen(g, entry, frontier[0].depth, seen))
  }

  // Between two rounds of the loop.
  ghost predicate Midway(g: Graph, entry: string, hops: nat, plan: seq<Stop>, frontier: seq<Stop>, seen: set<string>) {
    Listed(g, entry, hops, plan + frontier, seen) && Ring(g, entry, frontier, seen) && Opened(g, hops, plan, seen)
  }

  ghost predicate AllSeen(g: Graph, entry: string, hops: nat, seen: set<string>) {
    forall u :: Reach(g, entry, u, hops) ==> u in seen
  }

  ghost predicate Opened(g: Graph, hops: nat, plan: seq<Stop>, seen: set<string>) {
    forall s, e :: s in plan && s.depth < hops && e in Out(g, s.unit) ==> e.to in seen
  }

  // One round: what opening s adds, in whatever order.
  ghost predicate Round(g: Graph, s: Stop, hops: nat, before: set<string>, nxt: seq<Stop>, seen: set<string>) {
    && seen == before + Units(nxt) && Units(nxt) !! before && EachOnce(nxt)
    && (s.depth >= hops ==> nxt == [])
    && (forall t :: t in nxt ==> t.depth == s.depth + 1 && Edge(t.unit, t.via, t.why) in Out(g, s.unit))
    && (s.depth < hops ==> forall e :: e in Out(g, s.unit) ==> e.to in seen)
  }

  // After so many rounds.
  ghost predicate WalkedTo(g: Graph, entry: string, hops: nat, rank: string -> int, plan: seq<Stop>, frontier: seq<Stop>,
                           seen: set<string>, n: nat)
  {
    && n == |plan| && Midway(g, entry, hops, plan, frontier, seen) && seen <= Everything(g, entry) && entry in seen
    && plan + frontier == Grown(g, entry, hops, rank, n)
  }

  // What every round of the walk keeps.
  ghost predicate Walking(g: Graph, entry: string, hops: nat, rank: string -> int, plan: seq<Stop>, frontier: seq<Stop>,
                          seen: set<string>)
  {
    exists n: nat :: WalkedTo(g, entry, hops, rank, plan, frontier, seen, n)
  }

  lemma WalkStarts(g: Graph, entry: string, hops: nat, rank: string -> int)
    ensures Walking(g, entry, hops, rank, [], [Stop(entry, "entry", "", 0)], {entry})
  {
    var first := [Stop(entry, "entry", "", 0)];
    assert [] + first == first;
    assert WalkedTo(g, entry, hops, rank, [], first, {entry}, 0);
  }

  /** walk: the entry and everything within max_hops of it. An unknown entry is no walk; an unknown
      neighbour is listed all the same. */
  method WalkFrom(entry: string, rank: string -> int, known: set<string>, g: Graph, hops: nat) returns (plan: seq<Stop>)
    ensures entry !in known ==> plan == []
    ensures entry in known ==> IsWalk(g, entry, hops, plan) && plan == Grown(g, entry, hops, rank, |plan|)
  {
    if entry !in known {
      return [];
    }
    plan := [];
    var seen, frontier := {entry}, [Stop(entry, "entry", "", 0)];
    WalkStarts(g, entry, hops, rank);
    while frontier != []
      invariant Walking(g, entry, hops, rank, plan, frontier, seen)
      decreases |Everything(g, entry)| - |plan|
    {
      plan, frontier, seen := OpenNext(g, entry, hops, rank, plan, frontier, seen);
    }
    assert plan + frontier == plan;
    AllFound(g, entry, hops, plan, seen);
  }

  method OpenNext(g: Graph, ghost entry: string, hops: nat, rank: string -> int, plan: seq<Stop>, frontier: seq<Stop>,
                  seen: set<string>)
    returns (more: seq<Stop>, left: seq<Stop>, now: set<string>)
    requires frontier != [] && Walking(g, entry, hops, rank, plan, frontier, seen)
    ensures Walking(g, entry, hops, rank, more, left, now)
    ensures |plan| < |more| <= |Everything(g, entry)|
  {
    var s := frontier[0];
    var nxt;
    nxt, now := Neighbours(g, s, hops, rank, seen);
    WalkingOn(g, entry, hops, rank, plan, frontier, seen, nxt, now);
    more, left := plan + [s], frontier[1..] + nxt;
  }

  method Neighbours(g: Graph, s: Stop, hops: nat, rank: string -> int, seen: set<string>)
    returns (nxt: seq<Stop>, now: set<string>)
    ensures Round(g, s, hops, seen, nxt, now)
    ensures nxt == Added(g, hops, rank, s, seen)
  {
    nxt, now := [], seen;
    if s.depth < hops {
      nxt, now := Open(g, s.unit, s.depth, seen);
      FreshIsNew(Out(g, s.unit), s.depth, seen);
      ByRankPermutes(rank, nxt);
      assert Units(ByRank(rank, nxt)) == Units(nxt);
      nxt := ByRank(rank, nxt);
    }
  }

  lemma WalkingOn(g: Graph, entry: string, hops: nat, rank: string -> int, plan: seq<Stop>, frontier: seq<Stop>,
                  before: set<string>, nxt: seq<Stop>, seen: set<string>)
    requires frontier != [] && Walking(g, entry, hops, rank, plan, frontier, before)
    requires Round(g, frontier[0], hops, before, nxt, seen) && nxt == Added(g, hops, rank, frontier[0], before)
    ensures Walking(g, entry, hops, rank, plan + [frontier[0]], frontier[1..] + nxt, seen)
    ensures |plan| < |Everything(g, entry)|
  {
    RoundKept(g, entry, hops, rank, plan, frontier, before, nxt, seen);
    assert WalkedTo(g, entry, hops, rank, plan + [frontier[0]], frontier[1..] + nxt, seen, |plan| + 1);
  }

  lemma RoundKept(g: Graph, entry: string, hops: nat, rank: string -> int, plan: seq<Stop>, frontier: seq<Stop>,
                  before: set<string>, nxt: seq<Stop>, seen: set<string>)
    requires frontier != [] && Midway(g, entry, hops, plan, frontier, before) && before <= Everything(g, entry)
    requires Round(g, frontier[0], hops, before, nxt, seen) && nxt == Added(g, hops, rank, frontier[0], before)
    requires plan + frontier == Grown(g, entry, hops, rank, |plan|)
    ensures Midway(g, entry, hops, plan + [frontier[0]], frontier[1..] + nxt, seen) && seen <= Everything(g, entry)
    ensures (plan + [frontier[0]]) + (frontier[1..] + nxt) == Grown(g, entry, hops, rank, |plan| + 1)
    ensures |plan| < |Everything(g, entry)|
  {
    NewAreThere(g, entry, frontier[0], nxt);
    MidwayKept(g, entry, hops, plan, frontier, before, nxt, seen);
    GrownKept(g, entry, hops, rank, plan, frontier, nxt);
    PlanIsBounded(plan + [frontier[0]], frontier[1..] + nxt, seen, Everything(g, entry));
  }

  lemma GrownKept(g: Graph, entry: string, hops: nat, rank: string -> int, plan: seq<Stop>, frontier: seq<Stop>,
                  nxt: seq<Stop>)
    requires frontier != [] && plan + frontier == Grown(g, entry, hops, rank, |plan|)
    requires nxt == Added(g, hops, rank, frontier[0], Units(plan + frontier))
    ensures (plan + [frontier[0]]) + (frontier[1..] + nxt) == Grown(g, entry, hops, rank, |plan| + 1)
  {
    Moved(plan, frontier, nxt);
    var all := plan + frontier;
    assert all[|plan|] == frontier[0] && |plan| < |all|;
  }

  lemma Moved(plan: seq<Stop>, frontier: seq<Stop>, nxt: seq<Stop>)
    requires frontier != []
    ensures (plan + [frontier[0]]) + (frontier[1..] + nxt) == plan + frontier + nxt
  {
  }

  lemma NewAreThere(g: Graph, entry: string, s: Stop, nxt: seq<Stop>)
    requires forall t :: t in nxt ==> Edge(t.unit, t.via, t.why) in Out(g, s.unit)
    ensures Units(nxt) <= Everything(g, entry)
  {
    forall t | t in nxt ensures t.unit in Everything(g, entry) {
      assert s.unit in g && Edge(t.unit, t.via, t.why) in g[s.unit];
      assert Edge(t.unit, t.via, t.why).to == t.unit;
    }
  }

  lemma PlanIsBounded(plan: seq<Stop>, frontier: seq<Stop>, seen: set<string>, all: set<string>)
    requires EachOnce(plan + frontier) && seen == Units(plan + frontier) && seen <= all
    ensures |plan| <= |all|
  {
    assert forall i :: 0 <= i < |plan| ==> (plan + frontier)[i] == plan[i];
    UnitsCount(plan);
    forall u | u in Units(plan) ensures u in all {
      var s :| s in plan && s.unit == u;
      assert s in plan + frontier;
    }
    Sets.SubsetCardinality(Units(plan), all);
  }

  lemma Joined(a: seq<Stop>, b: seq<Stop>)
    requires EachOnce(a) && EachOnce(b) && Units(a) !! Units(b)
    ensures EachOnce(a + b) && Units(a + b) == Units(a) + Units(b)
  {
    assert forall s :: s in a + b <==> s in a || s in b;
    forall i, j | 0 <= i < |a| && 0 <= j < |b| ensures a[i].unit != b[j].unit {
      assert a[i].unit in Units(a) && b[j].unit in Units(b);
    }
  }

  lemma NewAreNearest(g: Graph, entry: string, s: Stop, hops: nat, before: set<string>, nxt: seq<Stop>, seen: set<string>)
    requires Round(g, s, hops, before, nxt, seen) && AtDistance(g, entry, s.unit, s.depth)
    requires AllSeen(g, entry, s.depth, before)
    ensures Nearest(g, entry, nxt) && Led(g, entry, nxt)
  {
    forall t | t in nxt
      ensures AtDistance(g, entry, t.unit, t.depth)
      ensures Reach(g, entry, s.unit, t.depth - 1) && Edge(t.unit, t.via, t.why) in Out(g, s.unit)
    {
      OneHop(g, entry, s.unit, Edge(t.unit, t.via, t.why), s.depth);
      assert t.unit in Units(nxt);
    }
  }

  /** Once the frontier is a hop further out, everything nearer has been opened. */
  lemma NextRingIsSeen(g: Graph, entry: string, hops: nat, plan: seq<Stop>, rest: seq<Stop>, seen: set<string>, d: nat)
    requires Nearest(g, entry, plan + rest) && Opened(g, hops, plan, seen) && d < hops
    requires AllSeen(g, entry, d, Units(plan + rest)) && Units(plan + rest) <= seen
    requires forall t :: t in rest ==> t.depth > d
    ensures AllSeen(g, entry, d + 1, seen)
  {
    forall v | Reach(g, entry, v, d + 1) ensures v in seen {
      if !Reach(g, entry, v, d) {
        var u, e := OneHopBack(g, entry, v, d + 1);
        var t :| t in plan + rest && t.unit == u;
        if t.depth > d {
          ReachGrows(g, entry, u, d, t.depth - 1);
        }
        assert t in plan;
      }
    }
  }

  lemma MidwayKept(g: Graph, entry: string, hops: nat, plan: seq<Stop>, frontier: seq<Stop>, before: set<string>,
                   nxt: seq<Stop>, seen: set<string>)
    requires frontier != [] && Midway(g, entry, hops, plan, frontier, before)
    requires Round(g, frontier[0], hops, before, nxt, seen)
    ensures Midway(g, entry, hops, plan + [frontier[0]], frontier[1..] + nxt, seen)
  {
    var s := frontier[0];
    assert (plan + [s]) + (frontier[1..] + nxt) == plan + frontier + nxt;
    assert (plan + frontier)[|plan|] == s;
    DepthsKept(plan, frontier, nxt);
    ListedKept(g, entry, hops, plan + frontier, s, before, nxt, seen);
    OpenedKept(g, s, hops, plan, before, nxt, seen);
    MidwayRing(g, entry, hops, plan, frontier, before, nxt, seen);
  }

  lemma MidwayRing(g: Graph, entry: string, hops: nat, plan: seq<Stop>, frontier: seq<Stop>, before: set<string>,
                   nxt: seq<Stop>, seen: set<string>)
    requires frontier != [] && Midway(g, entry, hops, plan, frontier, before)
    requires Round(g, frontier[0], hops, before, nxt, seen) && Opened(g, hops, plan + [frontier[0]], seen)
    ensures Ring(g, entry, frontier[1..] + nxt, seen)
  {
    var s, rest := frontier[0], frontier[1..];
    RingDepths(plan, frontier, nxt);
    assert (plan + [s]) + rest == plan + frontier;
    RingKept(g, entry, hops, plan + [s], rest, s.depth, before, nxt, seen);
  }

  lemma ListedKept(g: Graph, entry: string, hops: nat, all: seq<Stop>, s: Stop, before: set<string>, nxt: seq<Stop>,
                   seen: set<string>)
    requires Listed(g, entry, hops, all, before) && s in all && AllSeen(g, entry, s.depth, before)
    requires Round(g, s, hops, before, nxt, seen) && NearFirst(all + nxt)
    ensures Listed(g, entry, hops, all + nxt, seen)
  {
    Joined(all, nxt);
    NewAreNearest(g, entry, s, hops, before, nxt, seen);
    JoinedMeets(g, entry, all, nxt);
  }

  lemma JoinedMeets(g: Graph, entry: string, a: seq<Stop>, b: seq<Stop>)
    requires Nearest(g, entry, a) && Nearest(g, entry, b) && Led(g, entry, a) && Led(g, entry, b)
    ensures Nearest(g, entry, a + b) && Led(g, entry, a + b)
  {
  }

  lemma DepthsKept(plan: seq<Stop>, frontier: seq<Stop>, nxt: seq<Stop>)
    requires frontier != [] && NearFirst(plan + frontier)
    requires forall t :: t in frontier ==> t.depth <= frontier[0].depth + 1
    requires forall t :: t in nxt ==> t.depth == frontier[0].depth + 1
    ensures NearFirst(plan + frontier + nxt)
  {
    var was, s := plan + frontier, frontier[0];
    assert was[|plan|] == s;
    forall i | 0 <= i < |was| ensures was[i].depth <= s.depth + 1 {
      if i >= |plan| { assert was[i] == frontier[i - |plan|]; }
    }
  }

  // The rest of the frontier is in order too, and what is opened comes after it.
  lemma RingDepths(plan: seq<Stop>, frontier: seq<Stop>, nxt: seq<Stop>)
    requires frontier != [] && NearFirst(plan + frontier)
    requires forall t :: t in frontier ==> frontier[0].depth <= t.depth <= frontier[0].depth + 1
    requires forall t :: t in nxt ==> t.depth == frontier[0].depth + 1
    ensures var later := frontier[1..] + nxt;
      forall t :: t in later ==> later[0].depth <= t.depth <= later[0].depth + 1
    ensures var later := frontier[1..] + nxt;
      later != [] ==> frontier[0].depth <= later[0].depth <= frontier[0].depth + 1
    ensures forall t :: t in frontier[1..] ==> (frontier[1..] + nxt)[0].depth <= t.depth
  {
    var was, rest := plan + frontier, frontier[1..];
    forall i | 0 <= i < |rest| ensures rest[0].depth <= rest[i].depth {
      assert was[|plan| + 1 + i] == rest[i] && was[|plan| + 1] == rest[0];
    }
  }

  lemma OpenedKept(g: Graph, s: Stop, hops: nat, plan: seq<Stop>, before: set<string>, nxt: seq<Stop>, seen: set<string>)
    requires Opened(g, hops, plan, before) && Round(g, s, hops, before, nxt, seen)
    ensures Opened(g, hops, plan + [s], seen)
  {
  }

  lemma RingKept(g: Graph, entry: string, hops: nat, plan: seq<Stop>, rest: seq<Stop>, d: nat, before: set<string>,
                 nxt: seq<Stop>, seen: set<string>)
    requires Listed(g, entry, hops, plan + rest, before) && Opened(g, hops, plan, seen) && before <= seen
    requires AllSeen(g, entry, d, before)
    requires d >= hops ==> nxt == []
    requires var later := rest + nxt; later != [] ==> d <= later[0].depth <= d + 1
    requires var later := rest + nxt; forall t :: t in later ==> later[0].depth <= t.depth <= later[0].depth + 1
    ensures Ring(g, entry, rest + nxt, seen)
  {
    var later := rest + nxt;
    if later != [] && later[0].depth == d + 1 {
      if rest != [] {
        assert later[0] == rest[0] && rest[0] in plan + rest;
      }
      assert forall t :: t in rest ==> t in later;
      NextRingIsSeen(g, entry, hops, plan, rest, seen, d);
    }
  }

  /** When the frontier is empty, every unit within the hops is in the plan. */
  lemma AllFound(g: Graph, entry: string, hops: nat, plan: seq<Stop>, seen: set<string>)
    requires Midway(g, entry, hops, plan, [], seen) && entry in seen
    ensures IsWalk(g, entry, hops, plan)
  {
    assert plan + [] == plan;
    AllWithin(g, entry, hops, plan, seen, hops);
    forall u | u in Units(plan) ensures Reach(g, entry, u, hops) {
      var s :| s in plan && s.unit == u;
      ReachGrows(g, entry, u, s.depth, hops);
    }
  }

  lemma {:induction false} AllWithin(g: Graph, entry: string, hops: nat, plan: seq<Stop>, seen: set<string>, n: nat)
    requires Nearest(g, entry, plan) && Opened(g, hops, plan, seen) && seen == Units(plan) && entry in seen && n <= hops
    ensures AllSeen(g, entry, n, seen)
  {
    if n > 0 {
      AllWithin(g, entry, hops, plan, seen, n - 1);
      assert plan + [] == plan;
      NextRingIsSeen(g, entry, hops, plan, [], seen, n - 1);
    }
  }
}

/** A chain's jumps kept ahead of every other rule, edited live by number
    (scripts/edge/edge_chain.py), and the two scripts that share INPUT and FORWARD
    (scripts/edge/edge_firewall.py, scripts/edge/k3s_ports.py). */
module EdgeChain {

  // --- Rules and packets -----------------------------------------------------

  datatype Proto = Tcp | Udp

  datatype Packet = Packet(
    iface: string, proto: Proto, dport: nat,
    origDport: nat, original: bool,       // conntrack's original port and direction
    rest: int)

  // What a rule matches: the two shapes the scripts write, or anyone else's.
  datatype Match =
    | Dports(iface: string, proto: Proto, ports: set<nat>)
    | OrigDports(iface: string, proto: Proto, low: nat, high: nat)
    | Foreign(id: int)

  datatype Rule = Rule(args: Match, target: string)

  datatype Verdict = Accepted | Dropped | Returns

  // What every other rule matches, and what each target makes of a packet.
  datatype Kernel = Kernel(foreign: (int, Packet) -> bool, decide: (string, Packet) -> Verdict, policy: Verdict)

  predicate Matches(k: Kernel, m: Match, p: Packet) {
    match m
    case Dports(iface, proto, ports) => p.iface == iface && p.proto == proto && p.dport in ports
    case OrigDports(iface, proto, low, high) =>
      p.iface == iface && p.proto == proto && low <= p.origDport <= high && p.original
    case Foreign(id) => k.foreign(id, p)
  }

  predicate Decides(k: Kernel, r: Rule, p: Packet) {
    Matches(k, r.args, p) && !k.decide(r.target, p).Returns?
  }

  /** What the first rule that decides makes of p; Returns when none does. */
  function First(k: Kernel, chain: seq<Rule>, p: Packet): Verdict {
    if chain == [] then Returns else
    if Decides(k, chain[0], p) then k.decide(chain[0].target, p) else First(k, chain[1..], p)
  }

  function Judge(k: Kernel, chain: seq<Rule>, p: Packet): Verdict {
    if First(k, chain, p).Returns? then k.policy else First(k, chain, p)
  }

  // --- Listings --------------------------------------------------------------

  const PREFIX := "TXNET-"

  predicate Ours(jumps: seq<Rule>, target: string) { forall r :: r in jumps ==> r.target == target }

  /** our_positions: the 1-based numbers of the rules that jump to target. */
  function OurPositions(chain: seq<Rule>, target: string): (r: seq<nat>) {
    if chain == [] then [] else
    if chain[|chain| - 1].target == target then OurPositions(chain[..|chain| - 1], target) + [|chain|]
    else OurPositions(chain[..|chain| - 1], target)
  }

  /** The rules but another edge chain's jumps. */
  function Visible(chain: seq<Rule>, target: string): seq<Rule> {
    if chain == [] then [] else
    if PREFIX <= chain[0].target && chain[0].target != target then Visible(chain[1..], target)
    else [chain[0]] + Visible(chain[1..], target)
  }

  // list(range(1, count + 1))
  function Range(count: nat): seq<nat> { if count == 0 then [] else Range(count - 1) + [count] }

  /** on_top */
  predicate OnTop(chain: seq<Rule>, target: string, count: nat) {
    OurPositions(Visible(chain, target), target) == Range(count)
  }

  function Without(chain: seq<Rule>, target: string): seq<Rule> {
    if chain == [] then [] else
    if chain[0].target == target then Without(chain[1..], target) else [chain[0]] + Without(chain[1..], target)
  }

  function Removed(chain: seq<Rule>, rules: seq<Rule>): seq<Rule> {
    if chain == [] then [] else
    if chain[0] in rules then Removed(chain[1..], rules) else [chain[0]] + Removed(chain[1..], rules)
  }

  // The jumps of one chain, in order.
  function For(jumps: seq<(string, Rule)>, chain: string): seq<Rule> {
    if jumps == [] then [] else
    if jumps[0].0 == chain then [jumps[0].1] + For(jumps[1..], chain) else For(jumps[1..], chain)
  }

  predicate Names(jumps: seq<(string, Rule)>, chain: string) {
    exists i :: 0 <= i < |jumps| && jumps[i].0 == chain
  }

  ghost predicate AllOurs(jumps: seq<(string, Rule)>, target: string) {
    forall i :: 0 <= i < |jumps| ==> jumps[i].1.target == target
  }

  // Nothing to do: the jumps lead, and `-C` finds each.
  predicate Stable(chain: seq<Rule>, jumps: seq<Rule>, target: string) {
    OnTop(chain, target, |jumps|) && forall r :: r in jumps ==> r in chain
  }

  /** What hook leaves: the jumps, then the old chain without this target's, in order. */
  function Hooked(chain: seq<Rule>, jumps: seq<Rule>, target: string): seq<Rule> {
    if Stable(chain, jumps, target) then chain else jumps + Without(chain, target)
  }

  // Target's jumps are exactly the first `count` rules.
  ghost predicate Leads(rules: seq<Rule>, target: string, count: nat) {
    && count <= |rules|
    && forall i :: 0 <= i < |rules| ==> (rules[i].target == target <==> i < count)
  }

  lemma LeadsToTheEnd(rules: seq<Rule>, target: string, count: nat)
    requires rules != []
    ensures var front, last := rules[..|rules| - 1], rules[|rules| - 1];
      Leads(rules, target, count) <==>
        (if last.target == target then count == |rules| && Leads(front, target, count - 1) else Leads(front, target, count))
  {
    var front, last := rules[..|rules| - 1], rules[|rules| - 1];
    assert forall i :: 0 <= i < |front| ==> front[i] == rules[i];
    if Leads(rules, target, count) {
      assert rules[|rules| - 1].target == target <==> |rules| - 1 < count;
    }
  }

  lemma {:induction false} PositionsOfLeaders(rules: seq<Rule>, target: string, count: nat)
    ensures OurPositions(rules, target) == Range(count) <==> Leads(rules, target, count)
    ensures |OurPositions(rules, target)| <= |rules|
  {
    if rules != [] {
      var front := rules[..|rules| - 1];
      LeadsToTheEnd(rules, target, count);
      PositionsOfLeaders(front, target, count);
      if rules[|rules| - 1].target == target && count > 0 {
        PositionsOfLeaders(front, target, count - 1);
        SameEnd(OurPositions(front, target), |rules|, Range(count - 1), count);
      }
    }
  }

  lemma SameEnd(a: seq<nat>, x: nat, b: seq<nat>, y: nat)
    ensures a + [x] == b + [y] <==> a == b && x == y
  {
    if a + [x] == b + [y] {
      assert (a + [x])[|a|] == x && (b + [y])[|b|] == y;
      assert a == (a + [x])[..|a|] && b == (b + [y])[..|b|];
    }
  }

  /** Two edge scripts do not fight: another one's jumps do not count against this one's place. */
  lemma OnTopMeansLeading(chain: seq<Rule>, target: string, count: nat)
    ensures OnTop(chain, target, count) <==> Leads(Visible(chain, target), target, count)
  {
    PositionsOfLeaders(Visible(chain, target), target, count);
  }

  // The rules but the one numbered so.
  function Dropping<T>(chain: seq<T>, number: nat): seq<T>
    requires 1 <= number <= |chain|
  {
    chain[..number - 1] + chain[number..]
  }

  // --- The live chains -------------------------------------------------------

  /** A state hook may leave its chain in: some fresh copies on top, or all of them and the
      stale ones gone from the bottom up to `m`. */
  ghost predicate Between(now: seq<Rule>, chain: seq<Rule>, jumps: seq<Rule>, target: string) {
    || (exists i :: 0 <= i <= |jumps| && now == jumps[i..] + chain)
    || (exists m :: 0 <= m <= |chain| && now == jumps + Cleared(chain, m, target))
  }

  ghost function Cleared(chain: seq<Rule>, m: nat, target: string): seq<Rule>
    requires m <= |chain|
  {
    chain[..m] + Without(chain[m..], target)
  }

  ghost predicate AllBetween(past: seq<map<string, seq<Rule>>>, host: map<string, seq<Rule>>, chain: string,
                             jumps: seq<Rule>, target: string)
    requires chain in host
  {
    forall h :: h in past ==>
      chain in h && h == host[chain := h[chain]] && Between(h[chain], host[chain], jumps, target)
  }

  ghost predicate EachBetween(h: map<string, seq<Rule>>, host: map<string, seq<Rule>>, jumps: seq<(string, Rule)>,
                              target: string)
  {
    h.Keys == host.Keys && forall c :: c in host ==>
      if Names(jumps, c) then Between(h[c], host[c], For(jumps, c), target) else h[c] == host[c]
  }

  ghost predicate HookedSome(h: map<string, seq<Rule>>, host: map<string, seq<Rule>>, jumps: seq<(string, Rule)>,
                             i: nat, target: string)
    requires i <= |jumps|
  {
    h.Keys == host.Keys && forall c :: c in host ==>
      h[c] == if Names(jumps[..i], c) then Hooked(host[c], For(jumps, c), target) else host[c]
  }

  ghost predicate HookedAll(h: map<string, seq<Rule>>, host: map<string, seq<Rule>>, jumps: seq<(string, Rule)>,
                            target: string)
  {
    HookedSome(h, host, jumps, |jumps|, target)
  }

  class Host {
    var chains: map<string, seq<Rule>>
    ghost var past: seq<map<string, seq<Rule>>>   // every state after an iptables command

    /** -I chain 1 */
    method Insert(chain: string, rule: Rule)
      requires chain in chains
      modifies this
      ensures chains == old(chains)[chain := [rule] + old(chains)[chain]]
      ensures past == old(past) + [chains]
    {
      chains := chains[chain := [rule] + chains[chain]];
      past := past + [chains];
    }

    /** -D chain number */
    method Delete(chain: string, number: nat)
      requires chain in chains && 1 <= number <= |chains[chain]|
      modifies this
      ensures chains == old(chains)[chain := Dropping(old(chains)[chain], number)]
      ensures past == old(past) + [chains]
    {
      chains := chains[chain := Dropping(chains[chain], number)];
      past := past + [chains];
    }

    /** Fresh copies on top, before the stale ones are deleted by number. */
    method Hook(chain: string, jumps: seq<Rule>, target: string)
      requires chain in chains && Ours(jumps, target)
      modifies this
      ensures chains == old(chains)[chain := Hooked(old(chains)[chain], jumps, target)]
      ensures old(past) <= past
      ensures AllBetween(past[|old(past)|..], old(chains), chain, jumps, target)
    {
      if Stable(chains[chain], jumps, target) {
        return;
      }
      InsertAll(chain, jumps, target);
      DeleteStale(chain, jumps, target, old(chains), old(past));
    }

    method InsertAll(chain: string, jumps: seq<Rule>, target: string)
      requires chain in chains
      modifies this
      ensures chains == old(chains)[chain := jumps + old(chains)[chain]]
      ensures old(past) <= past
      ensures AllBetween(past[|old(past)|..], old(chains), chain, jumps, target)
    {
      var i := |jumps|;
      ghost var start := chains[chain];
      assert jumps[i..] + start == start;
      while i > 0
        invariant 0 <= i <= |jumps|
        invariant chains == old(chains)[chain := jumps[i..] + start]
        invariant old(past) <= past
        invariant AllBetween(past[|old(past)|..], old(chains), chain, jumps, target)
      {
        i := i - 1;
        Insert(chain, jumps[i]);
        assert [jumps[i]] + (jumps[i + 1..] + start) == jumps[i..] + start;
      }
    }

    method DeleteStale(chain: string, jumps: seq<Rule>, target: string, ghost host: map<string, seq<Rule>>,
                       ghost before: seq<map<string, seq<Rule>>>)
      requires chain in host && Ours(jumps, target)
      requires chains == host[chain := jumps + host[chain]]
      requires before <= past && AllBetween(past[|before|..], host, chain, jumps, target)
      modifies this
      ensures chains == host[chain := jumps + Without(host[chain], target)]
      ensures before <= past && AllBetween(past[|before|..], host, chain, jumps, target)
    {
      ghost var start, m := host[chain], |host[chain]|;
      var numbers := OurPositions(chains[chain], target);
      OursAreAtLeast(jumps, start, target);
      var i := |numbers|;
      assert start[..m] == start;
      while i > |jumps|
        invariant |jumps| <= i <= |numbers| && 0 <= m <= |start|
        invariant chains == host[chain := jumps + Cleared(start, m, target)]
        invariant numbers[..i] == OurPositions(jumps + start[..m], target)
        invariant before <= past && AllBetween(past[|before|..], host, chain, jumps, target)
      {
        i := i - 1;
        m := LastStale(jumps, start, m, target, numbers[..i + 1]);
        Delete(chain, numbers[i]);
      }
      NoneLeft(jumps, start, m, target);
    }

    /** hook_all: each chain the host has, in the order the jumps name them; no state on the way
        takes any chain outside what hook does to it. */
    method HookAll(jumps: seq<(string, Rule)>, target: string)
      requires AllOurs(jumps, target)
      modifies this
      ensures HookedAll(chains, old(chains), jumps, target)
      ensures old(past) <= past
      ensures forall h :: h in past[|old(past)|..] ==> EachBetween(h, old(chains), jumps, target)
    {
      for i := 0 to |jumps|
        invariant HookedSome(chains, old(chains), jumps, i, target)
        invariant old(past) <= past
        invariant forall h :: h in past[|old(past)|..] ==> EachBetween(h, old(chains), jumps, target)
      {
        HookNext(jumps, i, target, old(chains), old(past));
      }
    }

    // dict.fromkeys: a chain is hooked where the jumps first name it.
    method HookNext(jumps: seq<(string, Rule)>, i: nat, target: string, ghost host: map<string, seq<Rule>>,
                    ghost before: seq<map<string, seq<Rule>>>)
      requires i < |jumps| && AllOurs(jumps, target) && HookedSome(chains, host, jumps, i, target)
      requires before <= past && forall h :: h in past[|before|..] ==> EachBetween(h, host, jumps, target)
      modifies this
      ensures HookedSome(chains, host, jumps, i + 1, target)
      ensures before <= past && forall h :: h in past[|before|..] ==> EachBetween(h, host, jumps, target)
    {
      NextNames(jumps, i);
      var c := jumps[i].0;
      if c in chains && !Names(jumps[..i], c) {
        ForIsOurs(jumps, c, target);
        ghost var was, then_ := chains, past;
        Hook(c, For(jumps, c), target);
        forall h | h in past[|then_|..] ensures EachBetween(h, host, jumps, target) {
          HookKeepsBetween(h, was, host, jumps, i, target);
        }
        assert past[|before|..] == then_[|before|..] + past[|then_|..];
      }
    }

    /** unhook: every copy of the jumps, one `-D` at a time until none is found. */
    method Unhook(jumps: seq<(string, Rule)>)
      modifies this
      ensures chains.Keys == old(chains).Keys
      ensures forall c :: c in chains ==> chains[c] == Removed(old(chains)[c], For(jumps, c))
    {
      forall c | c in chains ensures Removed(chains[c], For([], c)) == chains[c] { RemovedNone(chains[c], []); }
      assert jumps[..0] == [];
      for i := 0 to |jumps|
        invariant chains.Keys == old(chains).Keys
        invariant forall c :: c in chains ==> chains[c] == Removed(old(chains)[c], For(jumps[..i], c))
      {
        DeleteEvery(jumps[i].0, jumps[i].1);
        assert jumps[..i + 1] == jumps[..i] + [jumps[i]];
        forall c | c in chains ensures chains[c] == Removed(old(chains)[c], For(jumps[..i + 1], c)) {
          ForOneMore(jumps[..i], jumps[i], c);
          RemovedTwice(old(chains)[c], For(jumps[..i], c), jumps[i].1);
          assert For(jumps[..i], c) + [] == For(jumps[..i], c);
        }
      }
      assert jumps[..|jumps|] == jumps;
    }

    method DeleteEvery(chain: string, rule: Rule)
      modifies this
      ensures chains == if chain in old(chains) then old(chains)[chain := Removed(old(chains)[chain], [rule])] else old(chains)
    {
      if chain !in chains { return; }
      while rule in chains[chain]
        invariant chain in chains
        invariant chains == old(chains)[chain := chains[chain]]
        invariant Removed(chains[chain], [rule]) == Removed(old(chains)[chain], [rule])
        decreases |chains[chain]|
      {
        var n := 1;
        while chains[chain][n - 1] != rule
          invariant 1 <= n <= |chains[chain]| && rule !in chains[chain][..n - 1]
          decreases |chains[chain]| - n
        {
          n := n + 1;
        }
        RemovedAt(chains[chain], n, rule);
        Delete(chain, n);
      }
      RemovedNone(chains[chain], [rule]);
    }
  }

  // --- Positions -------------------------------------------------------------

  lemma {:induction false} PositionsSplit(a: seq<Rule>, b: seq<Rule>, target: string)
    ensures |OurPositions(a + b, target)| == |OurPositions(a, target)| + |OurPositions(b, target)|
    decreases |b|
  {
    if b == [] {
      assert a + b == a;
    } else {
      assert (a + b)[..|a + b| - 1] == a + b[..|b| - 1];
      PositionsSplit(a, b[..|b| - 1], target);
    }
  }

  lemma {:induction false} OursAreAll(jumps: seq<Rule>, target: string)
    requires Ours(jumps, target)
    ensures |OurPositions(jumps, target)| == |jumps|
  {
    if jumps != [] {
      OursAreAll(jumps[..|jumps| - 1], target);
    }
  }

  lemma OursAreAtLeast(jumps: seq<Rule>, start: seq<Rule>, target: string)
    requires Ours(jumps, target)
    ensures |OurPositions(jumps + start, target)| >= |jumps|
    ensures Cleared(start, |start|, target) == start
  {
    PositionsSplit(jumps, start, target);
    OursAreAll(jumps, target);
    assert start[..|start|] == start && start[|start|..] == [];
  }

  /** The greatest number is a jump of target's, and no later rule is. */
  lemma {:induction false} LastPosition(rules: seq<Rule>, target: string) returns (q: nat)
    requires OurPositions(rules, target) != []
    ensures q < |rules| && OurPositions(rules, target) == OurPositions(rules[..q], target) + [q + 1]
    ensures rules[q].target == target && forall i :: q < i < |rules| ==> rules[i].target != target
  {
    q := |rules| - 1;
    if rules[q].target != target {
      var front := rules[..q];
      q := LastPosition(front, target);
      assert front[..q] == rules[..q];
    }
  }

  lemma {:induction false} WithoutNone(rules: seq<Rule>, target: string)
    requires forall r :: r in rules ==> r.target != target
    ensures Without(rules, target) == rules
  {
    if rules != [] {
      WithoutNone(rules[1..], target);
    }
  }

  lemma {:induction false} WithoutSplit(a: seq<Rule>, b: seq<Rule>, target: string)
    ensures Without(a + b, target) == Without(a, target) + Without(b, target)
  {
    if a == [] {
      assert a + b == b;
    } else {
      assert (a + b)[1..] == a[1..] + b;
      WithoutSplit(a[1..], b, target);
    }
  }

  lemma StaleTail(start: seq<Rule>, m: nat, q: nat, target: string)
    requires q < m <= |start| && start[q].target == target
    requires forall i :: q < i < m ==> start[i].target != target
    ensures Without(start[q..], target) == start[q + 1..m] + Without(start[m..], target)
  {
    var here := start[q + 1..m];
    forall r | r in here ensures r.target != target {
      var i :| 0 <= i < |here| && here[i] == r;
      assert start[q + 1 + i] == r;
    }
    WithoutNone(here, target);
    assert start[q..] == [start[q]] + (here + start[m..]);
    WithoutSplit(here, start[m..], target);
  }

  lemma CutOut<T>(a: seq<T>, x: T, b: seq<T>)
    ensures Dropping(a + [x] + b, |a| + 1) == a + b
  {
  }

  lemma StaleParts(jumps: seq<Rule>, start: seq<Rule>, m: nat, q: nat, target: string, rest: seq<Rule>)
    requires q < m <= |start| && rest == start[q + 1..m] + Without(start[m..], target)
    ensures jumps + Cleared(start, m, target) == (jumps + start[..q]) + [start[q]] + rest
  {
    assert start[..m] == start[..q] + [start[q]] + start[q + 1..m];
  }

  lemma Associates<T>(a: seq<T>, b: seq<T>, c: seq<T>)
    ensures (a + b) + c == a + (b + c)
  {
  }

  /** Deleting the last stale jump, the q-th rule of the old chain. */
  lemma DeletedAt(jumps: seq<Rule>, start: seq<Rule>, m: nat, q: nat, target: string, rest: seq<Rule>)
    requires q < m <= |start| && rest == start[q + 1..m] + Without(start[m..], target)
    requires Without(start[q..], target) == rest
    ensures |jumps| + q + 1 <= |jumps + Cleared(start, m, target)|
    ensures Dropping(jumps + Cleared(start, m, target), |jumps| + q + 1) == jumps + Cleared(start, q, target)
  {
    StaleParts(jumps, start, m, q, target, rest);
    CutOut(jumps + start[..q], start[q], rest);
    Associates(jumps, start[..q], rest);
  }

  /** The greatest of numbers is the last stale jump; deleting it clears the chain one further. */
  lemma LastStale(jumps: seq<Rule>, start: seq<Rule>, m: nat, target: string, numbers: seq<nat>) returns (q: nat)
    requires Ours(jumps, target) && m <= |start|
    requires numbers == OurPositions(jumps + start[..m], target) && |numbers| > |jumps|
    ensures q < m && numbers[|numbers| - 1] == |jumps| + q + 1
    ensures OurPositions(jumps + start[..q], target) == numbers[..|numbers| - 1]
    ensures |jumps| + q + 1 <= |jumps + Cleared(start, m, target)|
    ensures Dropping(jumps + Cleared(start, m, target), |jumps| + q + 1) == jumps + Cleared(start, q, target)
  {
    var front := jumps + start[..m];
    var n := LastPosition(front, target);
    PositionsOfLeaders(front[..n], target, 0);
    q := n - |jumps|;
    assert front[..n] == jumps + start[..q];
    forall i | q < i < m ensures start[i].target != target { assert front[|jumps| + i] == start[i]; }
    StaleTail(start, m, q, target);
    DeletedAt(jumps, start, m, q, target, start[q + 1..m] + Without(start[m..], target));
  }

  lemma NoneLeft(jumps: seq<Rule>, start: seq<Rule>, m: nat, target: string)
    requires Ours(jumps, target) && m <= |start|
    requires |OurPositions(jumps + start[..m], target)| == |jumps|
    ensures Cleared(start, m, target) == Without(start, target)
  {
    PositionsSplit(jumps, start[..m], target);
    OursAreAll(jumps, target);
    PositionsOfLeaders(start[..m], target, 0);
    WithoutNone(start[..m], target);
    assert start == start[..m] + start[m..];
    WithoutSplit(start[..m], start[m..], target);
  }

  lemma {:induction false} ForIsOurs(jumps: seq<(string, Rule)>, chain: string, target: string)
    requires AllOurs(jumps, target)
    ensures Ours(For(jumps, chain), target)
  {
    if jumps != [] {
      ForIsOurs(jumps[1..], chain, target);
    }
  }

  lemma NextNames(jumps: seq<(string, Rule)>, i: nat)
    requires i < |jumps|
    ensures forall c :: Names(jumps[..i + 1], c) <==> Names(jumps[..i], c) || c == jumps[i].0
  {
    forall c ensures Names(jumps[..i + 1], c) <==> Names(jumps[..i], c) || c == jumps[i].0 {
      if Names(jumps[..i], c) {
        var j :| 0 <= j < i && jumps[..i][j].0 == c;
        assert jumps[..i + 1][j].0 == c;
      }
      if c == jumps[i].0 { assert jumps[..i + 1][i].0 == c; }
      if Names(jumps[..i + 1], c) && c != jumps[i].0 {
        var j :| 0 <= j < i + 1 && jumps[..i + 1][j].0 == c;
        assert jumps[..i][j].0 == c;
      }
    }
  }

  lemma StartIsBetween(chain: seq<Rule>, jumps: seq<Rule>, target: string)
    ensures Between(chain, chain, jumps, target)
    ensures Between(Hooked(chain, jumps, target), chain, jumps, target)
  {
    assert jumps[|jumps|..] + chain == chain;
    assert chain[0..] == chain && Cleared(chain, 0, target) == Without(chain, target);
  }

  lemma HookKeepsBetween(h: map<string, seq<Rule>>, was: map<string, seq<Rule>>, host: map<string, seq<Rule>>,
                         jumps: seq<(string, Rule)>, i: nat, target: string)
    requires i < |jumps| && HookedSome(was, host, jumps, i, target)
    requires jumps[i].0 in host && !Names(jumps[..i], jumps[i].0)
    requires jumps[i].0 in h && h == was[jumps[i].0 := h[jumps[i].0]]
    requires Between(h[jumps[i].0], host[jumps[i].0], For(jumps, jumps[i].0), target)
    ensures EachBetween(h, host, jumps, target)
  {
    forall c | c in host
      ensures if Names(jumps, c) then Between(h[c], host[c], For(jumps, c), target) else h[c] == host[c]
    {
      StartIsBetween(host[c], For(jumps, c), target);
      assert jumps[i].0 == c ==> Names(jumps, c);
      if Names(jumps[..i], c) {
        var j :| 0 <= j < i && jumps[..i][j].0 == c;
        assert jumps[j].0 == c;
      }
    }
  }

  lemma {:induction false} ForOneMore(jumps: seq<(string, Rule)>, more: (string, Rule), chain: string)
    ensures For(jumps + [more], chain) == For(jumps, chain) + (if more.0 == chain then [more.1] else [])
  {
    if jumps == [] {
      assert [more][1..] == [];
    } else {
      assert (jumps + [more])[1..] == jumps[1..] + [more];
      ForOneMore(jumps[1..], more, chain);
    }
  }

  lemma RemovedCons(x: Rule, rest: seq<Rule>, rules: seq<Rule>)
    ensures Removed([x] + rest, rules) == if x in rules then Removed(rest, rules) else [x] + Removed(rest, rules)
  {
    assert ([x] + rest)[1..] == rest;
  }

  lemma {:induction false} RemovedTwice(chain: seq<Rule>, rules: seq<Rule>, rule: Rule)
    ensures Removed(Removed(chain, rules), [rule]) == Removed(chain, rules + [rule])
  {
    if chain != [] {
      RemovedTwice(chain[1..], rules, rule);
      RemovedCons(chain[0], Removed(chain[1..], rules), [rule]);
    }
  }

  lemma {:induction false} RemovedNone(chain: seq<Rule>, rules: seq<Rule>)
    requires forall r :: r in chain ==> r !in rules
    ensures Removed(chain, rules) == chain
  {
    if chain != [] {
      RemovedNone(chain[1..], rules);
    }
  }

  /** `-D` of a rule takes the first copy: the rest are still to remove. */
  lemma {:induction false} RemovedAt(chain: seq<Rule>, n: nat, rule: Rule)
    requires 1 <= n <= |chain| && chain[n - 1] == rule
    ensures Removed(Dropping(chain, n), [rule]) == Removed(chain, [rule])
  {
    if n == 1 {
      assert chain[..0] + chain[1..] == chain[1..];
    } else {
      RemovedAt(chain[1..], n - 1, rule);
      assert (chain[..n - 1] + chain[n..])[1..] == chain[1..][..n - 2] + chain[1..][n - 1..];
    }
  }
}

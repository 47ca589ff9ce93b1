/** What the edge chains' jumps mean for packets: no third verdict while hook works, scripts that
    settle, and an order among them that no packet can tell. */
module EdgeVerdicts {
  import opened EdgeChain
  import Sets
  import opened Strings

  // --- While hook works ------------------------------------------------------

  lemma {:induction false} FirstOfTwo(k: Kernel, a: seq<Rule>, b: seq<Rule>, p: Packet)
    ensures First(k, a + b, p) == if First(k, a, p).Returns? then First(k, b, p) else First(k, a, p)
  {
    if a == [] {
      assert a + b == b;
    } else {
      assert (a + b)[1..] == a[1..] + b;
      FirstOfTwo(k, a[1..], b, p);
    }
  }

  lemma {:induction false} OursDecideAlike(k: Kernel, jumps: seq<Rule>, target: string, p: Packet)
    requires Ours(jumps, target)
    ensures First(k, jumps, p).Returns? || First(k, jumps, p) == k.decide(target, p)
  {
    if jumps != [] {
      OursDecideAlike(k, jumps[1..], target, p);
    }
  }

  lemma {:induction false} WithoutReturns(k: Kernel, chain: seq<Rule>, target: string, p: Packet)
    requires First(k, chain, p).Returns?
    ensures First(k, Without(chain, target), p).Returns?
  {
    if chain != [] {
      WithoutReturns(k, chain[1..], target, p);
    }
  }

  lemma ClearedVerdict(k: Kernel, chain: seq<Rule>, m: nat, target: string, p: Packet)
    requires m <= |chain|
    ensures First(k, Cleared(chain, m, target), p) in {First(k, chain, p), First(k, Without(chain, target), p)}
  {
    assert chain == chain[..m] + chain[m..];
    FirstOfTwo(k, chain[..m], chain[m..], p);
    FirstOfTwo(k, chain[..m], Without(chain[m..], target), p);
    WithoutSplit(chain[..m], chain[m..], target);
    FirstOfTwo(k, Without(chain[..m], target), Without(chain[m..], target), p);
    if First(k, chain[..m], p).Returns? {
      WithoutReturns(k, chain[..m], target, p);
    }
  }

  /** In every state hook passes through, a packet gets the verdict it got before or the one it
      gets after. */
  lemma NoThirdVerdict(k: Kernel, now: seq<Rule>, chain: seq<Rule>, jumps: seq<Rule>, target: string, p: Packet)
    requires Ours(jumps, target) && Between(now, chain, jumps, target)
    ensures Judge(k, now, p) in {Judge(k, chain, p), Judge(k, jumps + Without(chain, target), p)}
  {
    OursDecideAlike(k, jumps, target, p);
    FirstOfTwo(k, jumps, Without(chain, target), p);
    if i :| 0 <= i <= |jumps| && now == jumps[i..] + chain {
      OursDecideAlike(k, jumps[i..], target, p);
      FirstOfTwo(k, jumps[i..], chain, p);
      assert jumps == jumps[..i] + jumps[i..];
      FirstOfTwo(k, jumps[..i], jumps[i..], p);
    } else {
      var m :| 0 <= m <= |chain| && now == jumps + Cleared(chain, m, target);
      FirstOfTwo(k, jumps, Cleared(chain, m, target), p);
      ClearedVerdict(k, chain, m, target, p);
    }
  }

  // The target itself drops p: one of its jumps is the first rule that decides.
  ghost predicate DroppedBy(k: Kernel, chain: seq<Rule>, target: string, p: Packet) {
    exists i :: Decider(k, chain, i, p) && chain[i].target == target && k.decide(target, p).Dropped?
  }

  ghost predicate Decider(k: Kernel, chain: seq<Rule>, i: int, p: Packet) {
    0 <= i < |chain| && Decides(k, chain[i], p) && forall j :: 0 <= j < i ==> !Decides(k, chain[j], p)
  }

  lemma {:induction false} DeciderIsFirst(k: Kernel, chain: seq<Rule>, i: int, p: Packet)
    requires Decider(k, chain, i, p)
    ensures First(k, chain, p) == k.decide(chain[i].target, p)
  {
    if i > 0 {
      assert !Decides(k, chain[0], p);
      assert Decider(k, chain[1..], i - 1, p);
      DeciderIsFirst(k, chain[1..], i - 1, p);
    }
  }

  lemma {:induction false} NothingHitReturns(k: Kernel, jumps: seq<Rule>, p: Packet)
    ensures First(k, jumps, p).Returns? <==> forall r :: r in jumps ==> !Decides(k, r, p)
  {
    if jumps != [] { NothingHitReturns(k, jumps[1..], p); }
  }

  /** A packet the target drops is dropped in every state hook passes through exactly when one of the
      fresh jumps is of it too, or the rules of others drop it. */
  lemma DropsStayIff(k: Kernel, chain: seq<Rule>, jumps: seq<Rule>, target: string, p: Packet)
    requires Ours(jumps, target) && DroppedBy(k, chain, target, p)
    ensures (forall now :: Between(now, chain, jumps, target) ==> Judge(k, now, p).Dropped?) <==>
      (exists r :: r in jumps && Decides(k, r, p)) || Judge(k, Without(chain, target), p).Dropped?
  {
    var i :| Decider(k, chain, i, p) && chain[i].target == target && k.decide(target, p).Dropped?;
    DeciderIsFirst(k, chain, i, p);
    OursDecideAlike(k, jumps, target, p);
    NothingHitReturns(k, jumps, p);
    FirstOfTwo(k, jumps, Without(chain, target), p);
    var last := jumps + Without(chain, target);
    assert Cleared(chain, 0, target) == Without(chain, target);
    assert Between(last, chain, jumps, target);
    forall now | Between(now, chain, jumps, target) ensures Judge(k, last, p).Dropped? ==> Judge(k, now, p).Dropped? {
      NoThirdVerdict(k, now, chain, jumps, target, p);
    }
  }

  /** So it stays dropped when the stale jumps are among the fresh. */
  lemma DropsStay(k: Kernel, now: seq<Rule>, chain: seq<Rule>, jumps: seq<Rule>, target: string, p: Packet)
    requires Ours(jumps, target) && Between(now, chain, jumps, target)
    requires forall r :: r in chain && r.target == target ==> r in jumps
    requires DroppedBy(k, chain, target, p)
    ensures Judge(k, now, p).Dropped?
  {
    var i :| Decider(k, chain, i, p) && chain[i].target == target && k.decide(target, p).Dropped?;
    assert chain[i] in jumps && Decides(k, chain[i], p);
    DropsStayIff(k, chain, jumps, target, p);
  }

  // --- Scripts that share a chain settle -------------------------------------

  lemma {:induction false} VisibleSplit(a: seq<Rule>, b: seq<Rule>, target: string)
    ensures Visible(a + b, target) == Visible(a, target) + Visible(b, target)
  {
    if a == [] {
      assert a + b == b;
    } else {
      assert (a + b)[1..] == a[1..] + b;
      VisibleSplit(a[1..], b, target);
    }
  }

  lemma {:induction false} VisibleOurs(jumps: seq<Rule>, owner: string, target: string)
    requires Ours(jumps, owner)
    ensures owner == target ==> Visible(jumps, target) == jumps
    ensures owner != target && PREFIX <= owner ==> Visible(jumps, target) == []
  {
    if jumps != [] {
      VisibleOurs(jumps[1..], owner, target);
    }
  }

  lemma {:induction false} VisibleWithout(chain: seq<Rule>, owner: string, target: string)
    ensures owner == target ==> forall r :: r in Visible(Without(chain, owner), target) ==> r.target != target
    ensures owner != target && PREFIX <= owner ==> Visible(Without(chain, owner), target) == Visible(chain, target)
  {
    if chain != [] {
      VisibleWithout(chain[1..], owner, target);
    }
  }

  lemma {:induction false} WithoutKeeps(chain: seq<Rule>, target: string)
    ensures forall r :: r in Without(chain, target) <==> r in chain && r.target != target
  {
    if chain != [] {
      WithoutKeeps(chain[1..], target);
    }
  }

  /** Once hooked, a second hook has nothing to do. */
  lemma HookedIsStable(chain: seq<Rule>, jumps: seq<Rule>, target: string)
    requires Ours(jumps, target)
    ensures Stable(Hooked(chain, jumps, target), jumps, target)
  {
    if !Stable(chain, jumps, target) {
      var rest := Without(chain, target);
      VisibleSplit(jumps, rest, target);
      VisibleOurs(jumps, target, target);
      VisibleWithout(chain, target, target);
      OnTopMeansLeading(jumps + rest, target, |jumps|);
    }
  }

  /** Hooking one edge chain neither puts another on top nor takes it from there. */
  lemma OtherIsStableIff(chain: seq<Rule>, jumps: seq<Rule>, target: string, others: seq<Rule>, other: string)
    requires Ours(others, other) && PREFIX <= other && other != target && Ours(jumps, target)
    ensures Stable(Hooked(chain, others, other), jumps, target) <==> Stable(chain, jumps, target)
  {
    if !Stable(chain, others, other) {
      VisibleSplit(others, Without(chain, other), target);
      VisibleOurs(others, other, target);
      VisibleWithout(chain, other, target);
      WithoutKeeps(chain, other);
      assert [] + Visible(chain, target) == Visible(chain, target);
      assert forall r :: r in jumps ==> (r in others + Without(chain, other) <==> r in chain);
    }
  }

  /** So another on top stays there. */
  lemma OtherStaysStable(chain: seq<Rule>, jumps: seq<Rule>, target: string, others: seq<Rule>, other: string)
    requires Ours(others, other) && PREFIX <= other && other != target
    requires Ours(jumps, target) && Stable(chain, jumps, target)
    ensures Stable(Hooked(chain, others, other), jumps, target)
  {
    OtherIsStableIff(chain, jumps, target, others, other);
  }

  datatype Script = Script(jumps: seq<Rule>, target: string)

  ghost predicate EdgeScripts(scripts: seq<Script>) {
    && (forall s :: s in scripts ==> Ours(s.jumps, s.target) && PREFIX <= s.target)
    && (forall s, t :: s in scripts && t in scripts && s.target == t.target ==> s == t)
  }

  // The chain after each script in turn has hooked it.
  function AfterAll(chain: seq<Rule>, scripts: seq<Script>): seq<Rule>
    decreases |scripts|
  {
    if scripts == [] then chain
    else AfterAll(Hooked(chain, scripts[0].jumps, scripts[0].target), scripts[1..])
  }

  lemma {:induction false} StaysStable(chain: seq<Rule>, scripts: seq<Script>, s: Script)
    requires EdgeScripts(scripts + [s]) && Stable(chain, s.jumps, s.target)
    ensures Stable(AfterAll(chain, scripts), s.jumps, s.target)
    decreases |scripts|
  {
    if scripts != [] {
      var t := scripts[0];
      assert t in scripts + [s] && s in scripts + [s];
      assert forall u :: u in scripts[1..] + [s] ==> u in scripts + [s];
      if s.target == t.target {
        HookedIsStable(chain, s.jumps, s.target);
      } else {
        OtherStaysStable(chain, s.jumps, s.target, t.jumps, t.target);
      }
      StaysStable(Hooked(chain, t.jumps, t.target), scripts[1..], s);
    }
  }

  lemma {:induction false} EachIsStable(chain: seq<Rule>, scripts: seq<Script>, s: Script)
    requires EdgeScripts(scripts) && s in scripts
    ensures Stable(AfterAll(chain, scripts), s.jumps, s.target)
    decreases |scripts|
  {
    var next := Hooked(chain, scripts[0].jumps, scripts[0].target);
    assert forall u :: u in scripts[1..] + [s] ==> u in scripts;
    if scripts[0] == s {
      HookedIsStable(chain, s.jumps, s.target);
      StaysStable(next, scripts[1..], s);
    } else {
      EachIsStable(next, scripts[1..], s);
    }
  }

  lemma {:induction false} StableStays(chain: seq<Rule>, scripts: seq<Script>)
    requires forall s :: s in scripts ==> Stable(chain, s.jumps, s.target)
    ensures AfterAll(chain, scripts) == chain
    decreases |scripts|
  {
    if scripts != [] {
      assert scripts[0] in scripts;
      StableStays(chain, scripts[1..]);
    }
  }

  /** The edge scripts settle: once each has run, in any order and any number of times, no run of
      any of them changes the chain again. */
  lemma ScriptsSettle(chain: seq<Rule>, scripts: seq<Script>, more: seq<Script>)
    requires EdgeScripts(scripts) && forall s :: s in more ==> s in scripts
    ensures AfterAll(AfterAll(chain, scripts), more) == AfterAll(chain, scripts)
  {
    forall s | s in more ensures Stable(AfterAll(chain, scripts), s.jumps, s.target) {
      EachIsStable(chain, scripts, s);
    }
    StableStays(AfterAll(chain, scripts), more);
  }

  lemma InsertedWithout(chain: seq<Rule>, copies: seq<Rule>, target: string)
    requires Ours(copies, target)
    ensures Without(copies + chain, target) == Without(chain, target)
  {
    WithoutSplit(copies, chain, target);
    WithoutOurs(copies, target);
  }

  lemma ClearedWithout(chain: seq<Rule>, m: nat, target: string)
    requires m <= |chain|
    ensures Without(Cleared(chain, m, target), target) == Without(chain, target)
  {
    WithoutSplit(chain[..m], Without(chain[m..], target), target);
    WithoutSplit(chain[..m], chain[m..], target);
    WithoutKeeps(chain[m..], target);
    WithoutNone(Without(chain[m..], target), target);
    assert chain == chain[..m] + chain[m..];
  }

  /** A hook that stopped anywhere has touched no one else's rule, and a rerun with
      anything left to do leaves what this run was after. */
  lemma StoppedHookLosesNothing(now: seq<Rule>, chain: seq<Rule>, jumps: seq<Rule>, target: string)
    requires Ours(jumps, target) && Between(now, chain, jumps, target)
    ensures Without(now, target) == Without(chain, target)
    ensures !Stable(now, jumps, target) ==> Hooked(now, jumps, target) == jumps + Without(chain, target)
  {
    if i :| 0 <= i <= |jumps| && now == jumps[i..] + chain {
      InsertedWithout(chain, jumps[i..], target);
    } else {
      var m :| 0 <= m <= |chain| && now == jumps + Cleared(chain, m, target);
      InsertedWithout(Cleared(chain, m, target), jumps, target);
      ClearedWithout(chain, m, target);
    }
  }

  // --- What "on top" amounts to ----------------------------------------------

  function Only(chain: seq<Rule>, target: string): seq<Rule> {
    if chain == [] then [] else
    if chain[0].target == target then [chain[0]] + Only(chain[1..], target) else Only(chain[1..], target)
  }

  lemma {:induction false} OnlyKeeps(chain: seq<Rule>, target: string)
    ensures forall r :: r in Only(chain, target) <==> r in chain && r.target == target
  {
    if chain != [] {
      OnlyKeeps(chain[1..], target);
    }
  }

  lemma LeadsOnward(rules: seq<Rule>, target: string, count: nat)
    requires rules != [] && Leads(rules, target, count)
    ensures rules[0].target == target ==> count > 0 && Leads(rules[1..], target, count - 1)
    ensures rules[0].target != target ==> count == 0 && Leads(rules[1..], target, 0)
  {
  }

  lemma {:induction false} LeadersAreCounted(chain: seq<Rule>, target: string, count: nat)
    requires Leads(Visible(chain, target), target, count)
    ensures |Only(chain, target)| == count
  {
    if chain != [] {
      var rules := Visible(chain, target);
      if !(PREFIX <= chain[0].target && chain[0].target != target) {
        LeadsOnward(rules, target, count);
        assert rules[1..] == Visible(chain[1..], target);
        LeadersAreCounted(chain[1..], target, if chain[0].target == target then count - 1 else 0);
      } else {
        LeadersAreCounted(chain[1..], target, count);
      }
    }
  }

  lemma {:induction false} DistinctCount(rules: seq<Rule>)
    ensures |set r | r in rules| <= |rules|
    ensures Distinct(rules) <==> |set r | r in rules| == |rules|
  {
    if rules != [] {
      var rest := rules[1..];
      DistinctCount(rest);
      assert (set r | r in rules) == (set r | r in rest) + {rules[0]};
      if rules[0] in rest {
        assert (set r | r in rules) == (set r | r in rest);
      } else {
        assert (set r | r in rest) !! {rules[0]};
      }
      if Distinct(rest) && rules[0] !in rest {
        forall i, j | 0 <= i < j < |rules| ensures rules[i] != rules[j] {
          assert rules[j] == rest[j - 1];
          assert i > 0 ==> rules[i] == rest[i - 1];
        }
      }
      if Distinct(rules) {
        forall i, j | 0 <= i < j < |rest| ensures rest[i] != rest[j] {
          assert rules[i + 1] != rules[j + 1];
        }
      }
    }
  }

  /** Where hook has nothing to do, target's rules are exactly the jumps, each once: as many as the
      jumps and -C finding each is enough, because the jumps differ. */
  lemma StableHasTheJumps(chain: seq<Rule>, jumps: seq<Rule>, target: string)
    requires Ours(jumps, target) && Distinct(jumps) && Stable(chain, jumps, target)
    ensures Distinct(Only(chain, target))
    ensures forall r :: r in chain && r.target == target <==> r in jumps
  {
    OnTopMeansLeading(chain, target, |jumps|);
    LeadersAreCounted(chain, target, |jumps|);
    OnlyKeeps(chain, target);
    var here, wanted := set r | r in Only(chain, target), set r | r in jumps;
    DistinctCount(jumps);
    DistinctCount(Only(chain, target));
    assert wanted <= here;
    Sets.SubsetCardinality(wanted, here);
    assert wanted == here;
    assert forall r :: r in jumps <==> r in wanted;
  }

  /** unhook undoes hook, whatever copies and neighbours the chain had. */
  lemma {:induction false} UnhookUndoesHook(chain: seq<Rule>, jumps: seq<Rule>, target: string)
    requires Ours(jumps, target) && Distinct(jumps)
    ensures Removed(Hooked(chain, jumps, target), jumps) == Without(chain, target)
  {
    if Stable(chain, jumps, target) {
      StableHasTheJumps(chain, jumps, target);
      RemovedIsWithout(chain, jumps, target);
    } else {
      WithoutKeeps(chain, target);
      RemovedAhead(jumps, Without(chain, target), jumps);
      RemovedNone(Without(chain, target), jumps);
    }
  }

  lemma {:induction false} RemovedIsWithout(chain: seq<Rule>, jumps: seq<Rule>, target: string)
    requires forall r :: r in chain ==> (r.target == target <==> r in jumps)
    ensures Removed(chain, jumps) == Without(chain, target)
  {
    if chain != [] {
      RemovedIsWithout(chain[1..], jumps, target);
    }
  }

  lemma {:induction false} RemovedAhead(front: seq<Rule>, chain: seq<Rule>, jumps: seq<Rule>)
    requires forall r :: r in front ==> r in jumps
    ensures Removed(front + chain, jumps) == Removed(chain, jumps)
  {
    if front == [] {
      assert front + chain == chain;
    } else {
      assert (front + chain)[1..] == front[1..] + chain;
      RemovedAhead(front[1..], chain, jumps);
    }
  }

  // --- Order among edge chains -----------------------------------------------

  // Some jump of target's in the chain decides p.
  predicate Hit(k: Kernel, chain: seq<Rule>, target: string, p: Packet) {
    exists r :: r in chain && r.target == target && Decides(k, r, p)
  }

  // The chain's edge jumps are a's and b's only.
  predicate OnlyTwo(chain: seq<Rule>, a: string, b: string) {
    forall r :: r in chain && PREFIX <= r.target ==> r.target == a || r.target == b
  }

  /** With both on top, a packet is judged by whichever of the two it hits, else by the rest. */
  lemma {:induction false} TwoOnTop(k: Kernel, chain: seq<Rule>, a: string, na: nat, b: string, nb: nat, p: Packet)
    requires a != b && PREFIX <= a && PREFIX <= b && OnlyTwo(chain, a, b)
    requires Leads(Visible(chain, a), a, na) && Leads(Visible(chain, b), b, nb)
    requires !(Hit(k, chain, a, p) && Hit(k, chain, b, p))
    ensures First(k, chain, p) ==
      if Hit(k, chain, a, p) then k.decide(a, p) else
      if Hit(k, chain, b, p) then k.decide(b, p) else First(k, Without(Without(chain, a), b), p)
  {
    if chain != [] {
      var rest, r := chain[1..], chain[0];
      HitOnward(k, chain, a, p);
      HitOnward(k, chain, b, p);
      if r.target == a {
        LeadsOnward(Visible(chain, a), a, na);
        assert Visible(chain, a)[1..] == Visible(rest, a);
        TwoOnTop(k, rest, a, na - 1, b, nb, p);
      } else if r.target == b {
        LeadsOnward(Visible(chain, b), b, nb);
        assert Visible(chain, b)[1..] == Visible(rest, b);
        TwoOnTop(k, rest, a, na, b, nb - 1, p);
      } else {
        LeadsOnward(Visible(chain, a), a, na);
        LeadsOnward(Visible(chain, b), b, nb);
        assert Visible(chain, a)[1..] == Visible(rest, a) && Visible(chain, b)[1..] == Visible(rest, b);
        NoneBelow(chain, a, b);
      }
    }
  }

  lemma HitOnward(k: Kernel, chain: seq<Rule>, target: string, p: Packet)
    requires chain != []
    ensures Hit(k, chain, target, p) <==>
      Hit(k, chain[1..], target, p) || (chain[0].target == target && Decides(k, chain[0], p))
  {
    assert chain == [chain[0]] + chain[1..];
  }

  lemma NoneBelow(chain: seq<Rule>, a: string, b: string)
    requires OnlyTwo(chain, a, b)
    requires Leads(Visible(chain, a), a, 0) && Leads(Visible(chain, b), b, 0)
    ensures forall r :: r in chain ==> r.target != a && r.target != b
    ensures Without(Without(chain, a), b) == chain
  {
    LeadersAreCounted(chain, a, 0);
    LeadersAreCounted(chain, b, 0);
    OnlyKeeps(chain, a);
    OnlyKeeps(chain, b);
    WithoutNone(chain, a);
    WithoutNone(chain, b);
  }

  // No packet is matched by a jump of one and a jump of the other.
  ghost predicate Disjoint(a: seq<Rule>, b: seq<Rule>) {
    forall k: Kernel, p: Packet, r: Rule, s: Rule ::
      r in a && s in b && Matches(k, r.args, p) ==> !Matches(k, s.args, p)
  }

  /** Two chains that both scripts are done with, and that agree on everyone else's rules, judge
      every packet alike: the order of the two scripts' jumps changes nothing. */
  lemma OrderChangesNoVerdict(k: Kernel, x: seq<Rule>, y: seq<Rule>, s: Script, t: Script, p: Packet)
    requires s.target != t.target && EdgeScripts([s, t]) && Distinct(s.jumps) && Distinct(t.jumps)
    requires Disjoint(s.jumps, t.jumps)
    requires OnlyTwo(x, s.target, t.target) && OnlyTwo(y, s.target, t.target)
    requires Stable(x, s.jumps, s.target) && Stable(x, t.jumps, t.target)
    requires Stable(y, s.jumps, s.target) && Stable(y, t.jumps, t.target)
    requires Without(Without(x, s.target), t.target) == Without(Without(y, s.target), t.target)
    ensures Judge(k, x, p) == Judge(k, y, p)
  {
    assert s in [s, t] && t in [s, t];
    JudgedByHits(k, x, s, t, p);
    JudgedByHits(k, y, s, t, p);
  }

  predicate JumpHits(k: Kernel, s: Script, p: Packet) {
    exists r :: r in s.jumps && Decides(k, r, p)
  }

  lemma JudgedByHits(k: Kernel, x: seq<Rule>, s: Script, t: Script, p: Packet)
    requires s.target != t.target && EdgeScripts([s, t]) && Distinct(s.jumps) && Distinct(t.jumps)
    requires Disjoint(s.jumps, t.jumps) && OnlyTwo(x, s.target, t.target)
    requires Stable(x, s.jumps, s.target) && Stable(x, t.jumps, t.target)
    ensures First(k, x, p) ==
      if JumpHits(k, s, p) then k.decide(s.target, p) else
      if JumpHits(k, t, p) then k.decide(t.target, p) else First(k, Without(Without(x, s.target), t.target), p)
  {
    assert s in [s, t] && t in [s, t];
    StableHasTheJumps(x, s.jumps, s.target);
    StableHasTheJumps(x, t.jumps, t.target);
    OnTopMeansLeading(x, s.target, |s.jumps|);
    OnTopMeansLeading(x, t.target, |t.jumps|);
    TwoOnTop(k, x, s.target, |s.jumps|, t.target, |t.jumps|, p);
  }

  // --- The two scripts ---------------------------------------------------------

  const EDGE := "TXNET-EDGE"
  const K3S := "TXNET-K3S"

  /** edge_firewall.jump_rules of the door on 80 and 443. */
  function EdgeJumps(iface: string): seq<(string, Rule)> {
    [("INPUT", Rule(Dports(iface, Tcp, {80, 443}), EDGE)),
     ("FORWARD", Rule(OrigDports(iface, Tcp, 80, 80), EDGE)),
     ("FORWARD", Rule(OrigDports(iface, Tcp, 443, 443), EDGE)),
     ("DOCKER-USER", Rule(OrigDports(iface, Tcp, 80, 80), EDGE)),
     ("DOCKER-USER", Rule(OrigDports(iface, Tcp, 443, 443), EDGE))]
  }

  /** k3s_ports.jump_rules */
  function K3sJumps(iface: string): seq<(string, Rule)> {
    [("INPUT", Rule(Dports(iface, Tcp, {6443, 10250, 10256}), K3S)),
     ("INPUT", Rule(Dports(iface, Udp, {8472, 51820, 51821}), K3S)),
     ("FORWARD", Rule(OrigDports(iface, Tcp, 30000, 32767), K3S)),
     ("FORWARD", Rule(OrigDports(iface, Udp, 30000, 32767), K3S))]
  }

  lemma InFor(jumps: seq<(string, Rule)>, chain: string, r: Rule)
    ensures r in For(jumps, chain) <==> (chain, r) in jumps
  {
    if jumps != [] {
      InFor(jumps[1..], chain, r);
    }
  }

  /** Neither script decides a packet of the other's, in any chain, on any two interfaces. */
  lemma PortsAreDisjoint(iface: string, other: string, chain: string)
    ensures Disjoint(For(EdgeJumps(iface), chain), For(K3sJumps(other), chain))
  {
    var a, b := For(EdgeJumps(iface), chain), For(K3sJumps(other), chain);
    forall k: Kernel, p: Packet, r: Rule, s: Rule | r in a && s in b && Matches(k, r.args, p)
      ensures !Matches(k, s.args, p)
    {
      InFor(EdgeJumps(iface), chain, r);
      InFor(K3sJumps(other), chain, s);
    }
  }

  lemma {:induction false} WithoutCommutes(chain: seq<Rule>, a: string, b: string)
    ensures Without(Without(chain, a), b) == Without(Without(chain, b), a)
  {
    if chain != [] {
      WithoutCommutes(chain[1..], a, b);
    }
  }

  lemma {:induction false} WithoutOurs(jumps: seq<Rule>, target: string)
    requires Ours(jumps, target)
    ensures Without(jumps, target) == []
  {
    if jumps != [] {
      WithoutOurs(jumps[1..], target);
    }
  }

  /** Of two blocks of jumps that decide different packets, either may stand first. */
  lemma BlocksCommute(k: Kernel, a: seq<Rule>, b: seq<Rule>, below: seq<Rule>, p: Packet)
    requires Disjoint(a, b)
    ensures First(k, a + (b + below), p) == First(k, b + (a + below), p)
  {
    FirstOfTwo(k, a, b + below, p);
    FirstOfTwo(k, b, below, p);
    FirstOfTwo(k, b, a + below, p);
    FirstOfTwo(k, a, below, p);
    if r :| r in a && Decides(k, r, p) {
      NothingHitReturns(k, b, p);
    } else {
      NothingHitReturns(k, a, p);
    }
  }

  /** What the two leave, one after the other: each its jumps ahead, unless they led already. */
  lemma AfterBoth(chain: seq<Rule>, s: Script, t: Script)
    requires EdgeScripts([s, t]) && s.target != t.target
    ensures
      var first := Hooked(chain, s.jumps, s.target);
      AfterAll(chain, [s, t]) == if Stable(chain, t.jumps, t.target) then first
        else t.jumps + if Stable(chain, s.jumps, s.target) then Without(chain, t.target)
          else s.jumps + Without(Without(chain, s.target), t.target)
  {
    assert s in [s, t] && t in [s, t];
    assert [s, t][1..] == [t] && [t][1..] == [];
    var first := Hooked(chain, s.jumps, s.target);
    OtherIsStableIff(chain, t.jumps, t.target, s.jumps, s.target);
    assert AfterAll(first, [t]) == AfterAll(Hooked(first, t.jumps, t.target), []);
    if !Stable(chain, s.jumps, s.target) {
      WithoutSplit(s.jumps, Without(chain, s.target), t.target);
      WithoutNone(s.jumps, t.target);
    }
  }

  /** Two edge scripts that decide different packets may run in either order, on whatever chain they
      find: every packet is judged alike. */
  lemma OrderOfTwoScripts(k: Kernel, chain: seq<Rule>, s: Script, t: Script, p: Packet)
    requires EdgeScripts([s, t]) && s.target != t.target && Disjoint(s.jumps, t.jumps)
    ensures Judge(k, AfterAll(chain, [s, t]), p) == Judge(k, AfterAll(chain, [t, s]), p)
  {
    assert forall u :: u in [t, s] ==> u in [s, t];
    AfterBoth(chain, s, t);
    AfterBoth(chain, t, s);
    WithoutCommutes(chain, s.target, t.target);
    BlocksCommute(k, s.jumps, t.jumps, Without(Without(chain, s.target), t.target), p);
  }

  /** Whichever of the two scripts ran first on a chain, every packet is judged alike. */
  lemma EitherMayRunFirst(k: Kernel, chain: seq<Rule>, name: string, iface: string, other: string, p: Packet)
    ensures var edge, k3s := Script(For(EdgeJumps(iface), name), EDGE), Script(For(K3sJumps(other), name), K3S);
      Judge(k, AfterAll(chain, [edge, k3s]), p) == Judge(k, AfterAll(chain, [k3s, edge]), p)
  {
    var edge, k3s := Script(For(EdgeJumps(iface), name), EDGE), Script(For(K3sJumps(other), name), K3S);
    ForIsOurs(EdgeJumps(iface), name, EDGE);
    ForIsOurs(K3sJumps(other), name, K3S);
    PortsAreDisjoint(iface, other, name);
    assert EDGE[6] == 'E' && K3S[6] == 'K';
    OrderOfTwoScripts(k, chain, edge, k3s, p);
  }

  lemma {:induction false} NoneFor(jumps: seq<(string, Rule)>, chain: string)
    requires !Names(jumps, chain)
    ensures For(jumps, chain) == []
  {
    if jumps != [] {
      assert jumps[0].0 != chain && forall i :: 0 <= i < |jumps[1..]| ==> jumps[1..][i] == jumps[i + 1];
      NoneFor(jumps[1..], chain);
    }
  }

  lemma DoorInInput(iface: string)
    ensures For(EdgeJumps(iface), "INPUT") == [Rule(Dports(iface, Tcp, {80, 443}), EDGE)]
  {
    var jumps := EdgeJumps(iface);
    assert "FORWARD"[0] != "INPUT"[0] && "DOCKER-USER"[0] != "INPUT"[0];
    NoneFor(jumps[1..], "INPUT");
  }

  /** The door re-hooked in INPUT for another interface: a packet to port 80 on the old one, which
      the door drops and nothing else does, comes through. */
  lemma OtherInterfaceLetsThrough(k: Kernel, iface: string, other: string, p: Packet) returns (now: seq<Rule>)
    requires iface != other && p.iface == iface && p.proto == Tcp && p.dport == 80
    requires k.decide(EDGE, p).Dropped? && k.policy.Accepted?
    ensures
      var chain, jumps := For(EdgeJumps(iface), "INPUT"), For(EdgeJumps(other), "INPUT");
      DroppedBy(k, chain, EDGE, p) && Between(now, chain, jumps, EDGE) && Judge(k, now, p).Accepted?
  {
    var chain, jumps := For(EdgeJumps(iface), "INPUT"), For(EdgeJumps(other), "INPUT");
    DoorInInput(iface);
    DoorInInput(other);
    now := jumps;
    assert Decider(k, chain, 0, p);
    assert Without(chain, EDGE) == [] && chain[..0] == [] && chain[0..] == chain;
    assert First(k, jumps, p) == Returns;
    assert Cleared(chain, 0, EDGE) == [] && now == jumps + Cleared(chain, 0, EDGE);
  }
}

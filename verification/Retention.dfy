/** Which backup bundles S3 keeps (scripts/bundle/bundle_plan.py).

    A bundle is identified with the UTC second in its name: the names under one server's
    prefix differ only in their stamp, and their order is the order of time (module
    BundleNames). The calendar is left open: a period is any function of that second. */
module Retention {
  import opened Sets

  // How far back from the newest bundle a rule looks.
  datatype Window = NoLimit | Under(span: nat)

  // "The newest of each of the first `count` periods inside the window".
  datatype Rule = Rule(period: int -> int, count: nat, window: Window)

  // S3_KEEP_NEWEST: every bundle is a period of its own.
  const NEWEST: Rule := Rule(t => t, 7, NoLimit)

  /** _S3_PERIODS, in seconds, for whatever calendar the four functions describe. */
  function S3Periods(hour: int -> int, day: int -> int, week: int -> int, month: int -> int): seq<Rule> {
    [ Rule(hour, 24, Under(24 * 3600)),
      Rule(day, 7, Under(7 * 86400)),
      Rule(week, 4, Under(4 * 7 * 86400)),
      Rule(month, 3, Under(3 * 31 * 86400)) ]
  }

  // --- What the rules mean ---------------------------------------------------

  ghost function PeriodsAfter(period: int -> int, names: set<int>, n: int): set<int> {
    set m | m in names && m > n :: period(m)
  }

  ghost function PeriodsIn(period: int -> int, part: seq<int>): set<int> {
    set m | m in part :: period(m)
  }

  ghost predicate Inside(window: Window, names: set<int>, n: int) {
    window.Under? ==> forall m :: m in names ==> m - n < window.span
  }

  /** Declaratively: `n` is the newest of its period, fewer than `count` periods are newer,
      and the newest bundle is not a whole window later. */
  ghost predicate Chosen(r: Rule, names: set<int>, n: int) {
    && n in names
    && Inside(r.window, names, n)
    && (forall m :: m in names && m > n ==> r.period(m) != r.period(n))
    && |PeriodsAfter(r.period, names, n)| < r.count
  }

  ghost predicate ChosenByAny(rules: seq<Rule>, names: set<int>, n: int) {
    exists i :: 0 <= i < |rules| && Chosen(rules[i], names, n)
  }

  ghost function Keep(rules: seq<Rule>, names: set<int>): set<int> {
    set n | n in names && ChosenByAny([NEWEST] + rules, names, n)
  }

  // --- Sorting ---------------------------------------------------------------

  ghost predicate NewestFirst(names: set<int>, ordered: seq<int>) {
    && (forall x :: x in ordered <==> x in names)
    && (forall i, j :: 0 <= i < j < |ordered| ==> ordered[i] > ordered[j])
  }

  /** sorted(…, key=bundle_time, reverse=True) */
  function Descending(s: set<int>): (d: seq<int>)
    ensures NewestFirst(s, d)
  {
    if s == {} then [] else
    var x := Max(s);
    var rest := Descending(s - {x});
    assert forall y :: y in [x] + rest <==> y == x || y in rest;
    [x] + rest
  }

  ghost function Elements(d: seq<int>): set<int> { set x | x in d }

  lemma {:induction false} StrictCardinality(d: seq<int>)
    requires forall i, j :: 0 <= i < j < |d| ==> d[i] > d[j]
    ensures |Elements(d)| == |d|
  {
    if d == [] {
    } else {
      var front := d[..|d| - 1];
      StrictCardinality(front);
      assert Elements(d) == Elements(front) + {d[|d| - 1]};
    }
  }

  // --- The loop --------------------------------------------------------------

  lemma BeforeIsNewer(names: set<int>, ordered: seq<int>, j: nat)
    requires NewestFirst(names, ordered) && j < |ordered|
    ensures forall m :: m in names && m > ordered[j] <==> m in ordered[..j]
  {
    forall m | m in names && m > ordered[j] ensures m in ordered[..j] {
      assert m in ordered;
      var k :| 0 <= k < |ordered| && ordered[k] == m;
      assert ordered[..j][k] == m;
    }
  }

  /** What the bundle at `j` means, given the periods of the ones before it. */
  lemma ChosenAt(r: Rule, names: set<int>, ordered: seq<int>, j: nat, seen: set<int>)
    requires r.window.Under? && NewestFirst(names, ordered) && j < |ordered|
    requires seen == PeriodsIn(r.period, ordered[..j])
    ensures Chosen(r, names, ordered[j]) <==>
      ordered[0] - ordered[j] < r.window.span && r.period(ordered[j]) !in seen && |seen| < r.count
  {
    var n := ordered[j];
    BeforeIsNewer(names, ordered, j);
    assert PeriodsAfter(r.period, names, n) == seen;
    assert ordered[0] in names && n in names;
    assert Inside(r.window, names, n) <==> ordered[0] - n < r.window.span by {
      forall m | m in names ensures m <= ordered[0] { assert m in ordered; }
    }
  }

  /** Once the loop leaves, nothing at or after this place is chosen. */
  lemma NoneAfter(r: Rule, names: set<int>, ordered: seq<int>, j: nat, seen: set<int>, n: int)
    requires r.window.Under? && NewestFirst(names, ordered) && j < |ordered|
    requires seen == PeriodsIn(r.period, ordered[..j])
    requires |seen| >= r.count || ordered[0] - ordered[j] >= r.window.span
    requires n in names && n <= ordered[j]
    ensures !Chosen(r, names, n)
  {
    assert ordered[0] in names;
    if |seen| >= r.count {
      BeforeIsNewer(names, ordered, j);
      assert seen <= PeriodsAfter(r.period, names, n);
      SubsetCardinality(seen, PeriodsAfter(r.period, names, n));
    }
  }

  ghost function ChosenIn(r: Rule, names: set<int>, part: seq<int>): set<int> {
    set n | n in part && Chosen(r, names, n)
  }

  lemma OneMore(r: Rule, names: set<int>, ordered: seq<int>, j: nat)
    requires r.window.Under? && NewestFirst(names, ordered) && j < |ordered|
    requires ordered[0] - ordered[j] < r.window.span
    requires |PeriodsIn(r.period, ordered[..j])| < r.count
    ensures PeriodsIn(r.period, ordered[..j + 1]) == PeriodsIn(r.period, ordered[..j]) + {r.period(ordered[j])}
    ensures ChosenIn(r, names, ordered[..j + 1]) == ChosenIn(r, names, ordered[..j])
      + if r.period(ordered[j]) in PeriodsIn(r.period, ordered[..j]) then {} else {ordered[j]}
  {
    var part := ordered[..j];
    ChosenAt(r, names, ordered, j, PeriodsIn(r.period, part));
    Extended(r, names, part, ordered[j]);
    assert ordered[..j + 1] == part + [ordered[j]];
  }

  lemma Extended(r: Rule, names: set<int>, part: seq<int>, n: int)
    ensures PeriodsIn(r.period, part + [n]) == PeriodsIn(r.period, part) + {r.period(n)}
    ensures ChosenIn(r, names, part + [n]) == ChosenIn(r, names, part) + if Chosen(r, names, n) then {n} else {}
  {
    assert forall x :: x in part + [n] <==> x in part || x == n;
  }

  lemma NoMore(r: Rule, names: set<int>, ordered: seq<int>, j: nat)
    requires r.window.Under? && NewestFirst(names, ordered) && j < |ordered|
    requires |PeriodsIn(r.period, ordered[..j])| >= r.count || ordered[0] - ordered[j] >= r.window.span
    ensures ChosenIn(r, names, ordered[..j]) == ChosenIn(r, names, ordered)
  {
    forall n | n in ordered && n !in ordered[..j] ensures !Chosen(r, names, n) {
      BeforeIsNewer(names, ordered, j);
      NoneAfter(r, names, ordered, j, PeriodsIn(r.period, ordered[..j]), n);
    }
  }

  // The pass has looked at the first j bundles.
  ghost predicate Picked(r: Rule, names: set<int>, ordered: seq<int>, j: int, seen: set<int>, kept: set<int>) {
    && 0 <= j <= |ordered| && |seen| <= r.count
    && seen == PeriodsIn(r.period, ordered[..j]) && kept == ChosenIn(r, names, ordered[..j])
  }

  lemma PicksOn(r: Rule, names: set<int>, ordered: seq<int>, j: nat, seen: set<int>, kept: set<int>)
    requires r.window.Under? && NewestFirst(names, ordered) && Picked(r, names, ordered, j, seen, kept)
    requires j < |ordered| && |seen| != r.count && ordered[0] - ordered[j] < r.window.span
    ensures var p := r.period(ordered[j]);
      Picked(r, names, ordered, j + 1, seen + {p}, if p in seen then kept else kept + {ordered[j]})
  {
    OneMore(r, names, ordered, j);
    var p := r.period(ordered[j]);
    assert p in seen ==> seen + {p} == seen;
    assert p !in seen ==> |seen + {p}| == |seen| + 1;
  }

  /** One pass of s3_keep's inner loop: newest first, leaving at the first bundle past
      the window or once `count` periods are seen. */
  method PickPeriods(r: Rule, names: set<int>, ordered: seq<int>) returns (kept: set<int>)
    requires r.window.Under?
    requires NewestFirst(names, ordered)
    ensures kept == ChosenIn(r, names, ordered)
  {
    var seen := {};
    kept := {};
    var j := 0;
    while j < |ordered|
      invariant Picked(r, names, ordered, j, seen, kept)
    {
      var when := ordered[j];
      if |seen| == r.count || ordered[0] - when >= r.window.span {
        NoMore(r, names, ordered, j);
        return;
      }
      PicksOn(r, names, ordered, j, seen, kept);
      if r.period(when) !in seen {
        seen := seen + {r.period(when)};
        kept := kept + {when};
      } else {
        assert seen + {r.period(when)} == seen;
      }
      j := j + 1;
    }
    assert ordered[..j] == ordered;
  }

  // Every bundle some rule of these chooses.
  ghost function ChosenBy(rules: seq<Rule>, names: set<int>): set<int> {
    set n | n in names && ChosenByAny(rules, names, n)
  }

  lemma OneRuleMore(rules: seq<Rule>, r: Rule, names: set<int>, ordered: seq<int>)
    requires NewestFirst(names, ordered)
    ensures ChosenBy(rules + [r], names) == ChosenBy(rules, names) + ChosenIn(r, names, ordered)
  {
    forall n ensures ChosenByAny(rules + [r], names, n) <==> ChosenByAny(rules, names, n) || Chosen(r, names, n) {
      OneMoreRule(rules, r, names, n);
    }
  }

  /** s3_keep: the newest seven, then each rule's periods over the same list. */
  method S3Keep(names: set<int>, rules: seq<Rule>) returns (keep: set<int>)
    requires forall r :: r in rules ==> r.window.Under?
    ensures keep == Keep(rules, names)
  {
    var ordered := Descending(names);
    var top := if |ordered| < NEWEST.count then |ordered| else NEWEST.count;
    keep := set n | n in ordered[..top];
    NewestAreFirst(names, ordered, top);
    assert [NEWEST] + rules[..0] == [NEWEST];
    for i := 0 to |rules|
      invariant keep == ChosenBy([NEWEST] + rules[..i], names)
    {
      var kept := PickPeriods(rules[i], names, ordered);
      OneRuleMore([NEWEST] + rules[..i], rules[i], names, ordered);
      assert [NEWEST] + rules[..i + 1] == [NEWEST] + rules[..i] + [rules[i]];
      keep := keep + kept;
    }
    assert [NEWEST] + rules[..|rules|] == [NEWEST] + rules;
  }

  lemma OneMoreRule(rules: seq<Rule>, r: Rule, names: set<int>, n: int)
    ensures ChosenByAny(rules + [r], names, n) <==> ChosenByAny(rules, names, n) || Chosen(r, names, n)
  {
    var all := rules + [r];
    if ChosenByAny(rules, names, n) {
      var i :| 0 <= i < |rules| && Chosen(rules[i], names, n);
      assert all[i] == rules[i];
    }
    if Chosen(r, names, n) { assert all[|rules|] == r; }
    if ChosenByAny(all, names, n) {
      var i :| 0 <= i < |all| && Chosen(all[i], names, n);
      assert i < |rules| ==> rules[i] == all[i];
    }
  }

  lemma NewestAreFirst(names: set<int>, ordered: seq<int>, top: nat)
    requires NewestFirst(names, ordered)
    requires top == if |ordered| < NEWEST.count then |ordered| else NEWEST.count
    ensures (set n | n in ordered[..top]) == ChosenBy([NEWEST], names)
  {
    forall n ensures n in ordered[..top] <==> n in names && ChosenByAny([NEWEST], names, n) {
      assert ChosenByAny([NEWEST], names, n) <==> Chosen(NEWEST, names, n) by {
        assert [NEWEST][0] == NEWEST;
      }
      if n in names {
        assert n in ordered;
        var k :| 0 <= k < |ordered| && ordered[k] == n;
        RankOf(names, ordered, k);
        assert k < top ==> n in ordered[..top] by { if k < top { assert ordered[..top][k] == n; } }
      }
    }
  }

  lemma RankOf(names: set<int>, ordered: seq<int>, k: nat)
    requires NewestFirst(names, ordered) && k < |ordered|
    ensures |PeriodsAfter(NEWEST.period, names, ordered[k])| == k
    ensures Chosen(NEWEST, names, ordered[k]) <==> k < NEWEST.count
  {
    BeforeIsNewer(names, ordered, k);
    assert PeriodsAfter(NEWEST.period, names, ordered[k]) == Elements(ordered[..k]);
    StrictCardinality(ordered[..k]);
  }

  // --- Path independence -----------------------------------------------------

  /** A bundle chosen among more is chosen among fewer. */
  lemma ChosenFromFewer(r: Rule, few: set<int>, many: set<int>, n: int)
    requires few <= many && n in few && Chosen(r, many, n)
    ensures Chosen(r, few, n)
  {
    assert PeriodsAfter(r.period, few, n) <= PeriodsAfter(r.period, many, n);
    SubsetCardinality(PeriodsAfter(r.period, few, n), PeriodsAfter(r.period, many, n));
  }

  /** Dropping bundles the rule did not choose loses no period newer than a chosen one. */
  lemma NoPeriodIsLost(r: Rule, few: set<int>, many: set<int>, n: int)
    requires few <= many
    requires forall m :: m in many && Chosen(r, many, m) ==> m in few
    requires Inside(r.window, many, n)
    requires |PeriodsAfter(r.period, few, n)| < r.count
    ensures PeriodsAfter(r.period, many, n) == PeriodsAfter(r.period, few, n)
  {
    var here := PeriodsAfter(r.period, few, n);
    var lost := set m | m in many && m > n && r.period(m) !in here;
    if lost != {} {
      // The newest lost bundle leads its own period, and every period after it survives in `few`.
      var m := Max(lost);
      assert forall x :: x in many && x > m ==> r.period(x) in here by {
        forall x | x in many && x > m ensures r.period(x) in here { assert x !in lost; }
      }
      assert PeriodsAfter(r.period, many, m) <= here;
      SubsetCardinality(PeriodsAfter(r.period, many, m), here);
      assert Chosen(r, many, m);
      assert false;
    }
    forall x | x in many && x > n ensures r.period(x) in here { assert x !in lost; }
  }

  /** Dropping bundles the rule did not choose reveals no new choice. */
  lemma ChosenFromMore(r: Rule, few: set<int>, many: set<int>, n: int)
    requires few <= many
    requires forall m :: m in many && Chosen(r, many, m) ==> m in few
    requires forall m :: m in many ==> exists s :: s in few && m <= s
    requires Chosen(r, few, n)
    ensures Chosen(r, many, n)
  {
    assert Inside(r.window, many, n) by {
      forall x | x in many && r.window.Under? ensures x - n < r.window.span {
        var s :| s in few && x <= s;
      }
    }
    NoPeriodIsLost(r, few, many, n);
    forall x | x in many && x > n ensures r.period(x) != r.period(n) {
      assert r.period(x) in PeriodsAfter(r.period, few, n);
    }
  }

  /** keep(T) ∩ S ⊆ keep(S) for S inside T. */
  lemma KeepFromFewer(rules: seq<Rule>, few: set<int>, many: set<int>)
    requires few <= many
    ensures Keep(rules, many) * few <= Keep(rules, few)
  {
    forall n | n in Keep(rules, many) * few ensures n in Keep(rules, few) {
      var i :| 0 <= i < |[NEWEST] + rules| && Chosen(([NEWEST] + rules)[i], many, n);
      ChosenFromFewer(([NEWEST] + rules)[i], few, many, n);
    }
  }

  /** Pruning to anything that still holds keep(T) does not change what is kept. */
  lemma KeepIsPathIndependent(rules: seq<Rule>, few: set<int>, many: set<int>)
    requires Keep(rules, many) <= few <= many
    ensures Keep(rules, few) == Keep(rules, many)
  {
    KeepFromFewer(rules, few, many);
    var all := [NEWEST] + rules;
    if many != {} {
      NewestIsKept(rules, many);
      forall n | n in Keep(rules, few) ensures n in Keep(rules, many) {
        var i :| 0 <= i < |all| && Chosen(all[i], few, n);
        forall m | m in many && Chosen(all[i], many, m) ensures m in few { assert m in Keep(rules, many); }
        ChosenFromMore(all[i], few, many, n);
      }
    }
  }

  lemma NewestIsKept(rules: seq<Rule>, names: set<int>)
    requires names != {}
    ensures Max(names) in Keep(rules, names)
  {
    assert PeriodsAfter(NEWEST.period, names, Max(names)) == {};
    assert Chosen(NEWEST, names, Max(names));
    assert ([NEWEST] + rules)[0] == NEWEST;
  }

  /** Each of the newest seven is kept, whatever the other rules say. */
  lemma NewestSevenAreKept(rules: seq<Rule>, names: set<int>, n: int)
    requires n in names && |set m | m in names && m > n| < NEWEST.count
    ensures n in Keep(rules, names)
  {
    assert PeriodsAfter(NEWEST.period, names, n) == set m | m in names && m > n;
    assert ([NEWEST] + rules)[0] == NEWEST;
  }

  /** Online: `held` is what a store pruned on every arrival still holds of `ever`. After one
      more arrival, in any order of time, and any prune down to a set still holding keep(held),
      the store still holds all that pruning the full history once would have kept. */
  lemma OnlinePruningLosesNothing(rules: seq<Rule>, ever: set<int>, held: set<int>, arrived: int, left: set<int>)
    requires Keep(rules, ever) <= held <= ever
    requires Keep(rules, held + {arrived}) <= left <= held + {arrived}
    ensures Keep(rules, ever + {arrived}) <= left <= ever + {arrived}
  {
    KeepFromFewer(rules, ever, ever + {arrived});
    KeepIsPathIndependent(rules, held + {arrived}, ever + {arrived});
  }

  // --- How many there can be ---------------------------------------------------------

  ghost function ChosenSet(r: Rule, names: set<int>): set<int> { set n | n in names && Chosen(r, names, n) }

  lemma LaterHasFewerPeriods(r: Rule, names: set<int>, m: int, n: int)
    requires Chosen(r, names, m) && Chosen(r, names, n) && n < m
    ensures |PeriodsAfter(r.period, names, m)| < |PeriodsAfter(r.period, names, n)|
  {
    var newer, older := PeriodsAfter(r.period, names, m), PeriodsAfter(r.period, names, n);
    assert r.period(m) in older && r.period(m) !in newer;
    SubsetCardinality(newer, older);
  }

  // Numbered without repetition below `bound`.
  lemma {:induction false} FewerThanBound(s: set<int>, rank: int -> int, bound: nat)
    requires forall n :: n in s ==> 0 <= rank(n) < bound
    requires forall m, n :: m in s && n in s && m != n ==> rank(m) != rank(n)
    ensures |s| <= bound
    decreases bound
  {
    if s != {} {
      if n :| n in s && rank(n) == bound - 1 {
        FewerThanBound(s - {n}, rank, bound - 1);
        assert s == (s - {n}) + {n};
      } else {
        var n := Inhabitant(s);
        FewerThanBound(s, rank, bound - 1);
      }
    }
  }

  /** One rule keeps no more bundles than its count. */
  lemma RuleKeepsAtMost(r: Rule, names: set<int>)
    ensures |ChosenSet(r, names)| <= r.count
  {
    var chosen := ChosenSet(r, names);
    forall m, n | m in chosen && n in chosen && m != n
      ensures |PeriodsAfter(r.period, names, m)| != |PeriodsAfter(r.period, names, n)|
    {
      if n < m { LaterHasFewerPeriods(r, names, m, n); } else { LaterHasFewerPeriods(r, names, n, m); }
    }
    CountedAtMost(r, names, chosen);
  }

  lemma {:induction false} CountedAtMost(r: Rule, names: set<int>, chosen: set<int>)
    requires forall n :: n in chosen ==> Chosen(r, names, n)
    requires forall m, n :: m in chosen && n in chosen && m != n ==>
      |PeriodsAfter(r.period, names, m)| != |PeriodsAfter(r.period, names, n)|
    ensures |chosen| <= r.count
  {
    FewerThanBound(chosen, n => |PeriodsAfter(r.period, names, n)|, r.count);
  }

  function Counts(rules: seq<Rule>): nat { if rules == [] then 0 else rules[0].count + Counts(rules[1..]) }

  lemma {:induction false} RulesKeepAtMost(rules: seq<Rule>, names: set<int>)
    ensures |set n | n in names && ChosenByAny(rules, names, n)| <= Counts(rules)
  {
    var kept := set n | n in names && ChosenByAny(rules, names, n);
    if rules == [] {
      assert kept == {};
    } else {
      var rest := set n | n in names && ChosenByAny(rules[1..], names, n);
      RulesKeepAtMost(rules[1..], names);
      RuleKeepsAtMost(rules[0], names);
      forall n | n in kept ensures n in ChosenSet(rules[0], names) + rest {
        var i :| 0 <= i < |rules| && Chosen(rules[i], names, n);
        if i > 0 { assert Chosen(rules[1..][i - 1], names, n); }
      }
      SubsetCardinality(kept, ChosenSet(rules[0], names) + rest);
    }
  }

  /** However many bundles were ever made, S3 keeps at most forty-five. */
  lemma S3KeepsAtMost(hour: int -> int, day: int -> int, week: int -> int, month: int -> int, names: set<int>)
    ensures |Keep(S3Periods(hour, day, week, month), names)| <= 45
  {
    var rules := [NEWEST] + S3Periods(hour, day, week, month);
    RulesKeepAtMost(rules, names);
    assert rules[4..][1..] == [] && Counts(rules[4..]) == 3;
    assert rules[3..][1..] == rules[4..] && Counts(rules[3..]) == 7;
    assert rules[2..][1..] == rules[3..] && Counts(rules[2..]) == 14;
    assert rules[1..][1..] == rules[2..] && Counts(rules[1..]) == 38;
  }
}

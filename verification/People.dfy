/** Staging's people: every contact rewritten to a fake, a unique column in two phases, and the guard
    that counts what is no fake (tools/k8s_staging_people.py). */
module People {
  import opened Numerals
  import opened Wrappers

  // --- lpad ----------------------------------------------------------------------

  function Zeros(k: nat): string { if k == 0 then "" else "0" + Zeros(k - 1) }

  lemma {:induction false} ZerosHold(k: nat)
    ensures |Zeros(k)| == k && AllDigits(Zeros(k))
  {
    if k > 0 {
      ZerosHold(k - 1);
    }
  }

  lemma {:induction false} LeadingZeros(k: nat, s: string)
    requires AllDigits(s)
    ensures AllDigits(Zeros(k) + s) && Value(Zeros(k) + s) == Value(s)
  {
    ZerosHold(k);
    if s == "" {
      assert Zeros(k) + s == Zeros(k);
      ZerosAreNothing(k);
    } else {
      LeadingZeros(k, s[..|s| - 1]);
      assert (Zeros(k) + s)[..k + |s| - 1] == Zeros(k) + s[..|s| - 1];
    }
  }

  lemma {:induction false} ZerosAreNothing(k: nat)
    ensures AllDigits(Zeros(k)) && Value(Zeros(k)) == 0
  {
    ZerosHold(k);
    if k > 0 {
      ZerosAreNothing(k - 1);
      ZerosHold(k - 1);
      ZerosEnd(k);
    }
  }

  lemma {:induction false} ZerosEnd(k: nat)
    requires k > 0
    ensures Zeros(k) == Zeros(k - 1) + "0"
  {
    if k > 1 {
      ZerosEnd(k - 1);
      assert "0" + (Zeros(k - 2) + "0") == ("0" + Zeros(k - 2)) + "0";
    }
  }

  /** lpad(s, k, '0'): padded, or cut to its first k. */
  function Lpad(s: string, k: nat): string { if |s| <= k then Zeros(k - |s|) + s else s[..k] }

  // --- Fakes -----------------------------------------------------------------------

  const FAKE_CHAT_BASE := 9_000_000_000_000_000

  function FakePhone(n: nat): string { "+98912" + Lpad(Shown(n), 7) }
  function FakeEmail(n: nat): string { "user" + Shown(n) + "@staging.invalid" }
  function FakeChat(n: nat): string { Shown(FAKE_CHAT_BASE + n) }

  /** is_phone, in a table of so many rows. */
  predicate IsPhone(v: string, rows: nat) {
    |v| == 13 && v[..6] == "+98912" && AllDigits(v[6..]) && Value(v[6..]) <= rows
  }

  predicate IsEmail(v: string) {
    |v| >= 21 && v[..4] == "user" && v[|v| - 16..] == "@staging.invalid" && AllDigits(v[4..|v| - 16])
  }

  predicate IsChat(v: string) { |v| == 16 && AllDigits(v) && Value(v) > FAKE_CHAT_BASE }

  lemma PowerOfSeven()
    ensures Power(7) == 10_000_000 && Power(6) == 1_000_000
  {
    assert Power(3) == 1000;
    assert Power(6) == 1_000_000;
  }

  lemma PaddedValue(n: nat)
    requires n < 10_000_000
    ensures var s := Lpad(Shown(n), 7); |s| == 7 && AllDigits(s) && Value(s) == n
  {
    PowerOfSeven();
    ShownBack(n);
    ShownLength(n, 7);
    ZerosHold(7 - |Shown(n)|);
    LeadingZeros(7 - |Shown(n)|, Shown(n));
  }

  lemma Million()
    ensures Shown(1_000_000) == "1000000" && Shown(10_000_000) == "10000000"
  {
    assert Shown(10) == "10";
    assert Shown(100) == "10" + "0" == "100";
    assert Shown(1000) == "100" + "0" == "1000";
    assert Shown(10_000) == "1000" + "0" == "10000";
    assert Shown(100_000) == "10000" + "0" == "100000";
    assert Shown(1_000_000) == "100000" + "0" == "1000000";
    assert Shown(10_000_000) == "1000000" + "0" == "10000000";
  }

  predicate PhonesDiffer(count: nat) {
    forall m, n :: 0 < m < n <= count ==> FakePhone(m) != FakePhone(n)
  }

  /** lpad cuts an eighth digit off: the fake phones of so many rows all differ exactly when there
      are fewer than ten million. */
  lemma PhonesDifferIff(count: nat)
    ensures PhonesDiffer(count) <==> count < 10_000_000
  {
    if count < 10_000_000 {
      forall m, n | 0 < m < n <= count ensures FakePhone(m) != FakePhone(n) {
        PaddedValue(m);
        PaddedValue(n);
        assert FakePhone(m)[6..] == Lpad(Shown(m), 7) && FakePhone(n)[6..] == Lpad(Shown(n), 7);
      }
    } else {
      Million();
      assert "10000000"[..7] == "1000000";
      assert FakePhone(1_000_000) == FakePhone(10_000_000);
    }
  }

  lemma {:induction false} CutValue(s: string, k: nat)
    requires AllDigits(s) && k <= |s|
    ensures AllDigits(s[..k]) && Value(s[..k]) <= Value(s)
  {
    if k < |s| {
      CutValue(s[..|s| - 1], k);
      assert s[..|s| - 1][..k] == s[..k];
    } else {
      assert s[..k] == s;
    }
  }

  /** Padded or cut, a fake phone says no more than its row's number. */
  lemma PhoneIsPhone(n: nat, rows: nat)
    requires n <= rows
    ensures IsPhone(FakePhone(n), rows)
  {
    ShownBack(n);
    if |Shown(n)| > 7 {
      CutValue(Shown(n), 7);
    } else {
      ZerosHold(7 - |Shown(n)|);
      LeadingZeros(7 - |Shown(n)|, Shown(n));
    }
    assert FakePhone(n)[6..] == Lpad(Shown(n), 7);
  }

  lemma EmailIsEmail(n: nat)
    ensures IsEmail(FakeEmail(n))
  {
    ShownBack(n);
    var v := FakeEmail(n);
    assert v[..4] == "user" && v[|v| - 16..] == "@staging.invalid" && v[4..|v| - 16] == Shown(n);
  }

  lemma EmailsDiffer(m: nat, n: nat)
    requires m != n
    ensures FakeEmail(m) != FakeEmail(n)
  {
    ShownBack(m);
    ShownBack(n);
    assert FakeEmail(m)[4..|FakeEmail(m)| - 16] == Shown(m) && FakeEmail(n)[4..|FakeEmail(n)| - 16] == Shown(n);
  }

  lemma PowerOfSixteen()
    ensures Power(15) == 1_000_000_000_000_000 && Power(16) == 10_000_000_000_000_000
  {
    PowerOfSeven();
    assert Power(8) == 100_000_000 && Power(10) == 10_000_000_000 && Power(12) == 1_000_000_000_000;
    assert Power(14) == 100_000_000_000_000;
  }

  lemma ChatIsChat(n: nat)
    requires 0 < n < 1_000_000_000_000_000
    ensures IsChat(FakeChat(n))
  {
    PowerOfSixteen();
    ShownBack(FAKE_CHAT_BASE + n);
    ShownLength(FAKE_CHAT_BASE + n, 16);
    ShownAtLeast(FAKE_CHAT_BASE + n, 15);
  }

  lemma ChatsDiffer(m: nat, n: nat)
    requires m != n
    ensures FakeChat(m) != FakeChat(n)
  {
    ShownBack(FAKE_CHAT_BASE + m);
    ShownBack(FAKE_CHAT_BASE + n);
  }

  // --- A column ----------------------------------------------------------------------

  // One row's contact, the platform it is of where the column has one, and the rest of the unique
  // key it is part of.
  datatype Row = Row(scope: string, platform: Option<string>, value: Option<string>)

  type Owners = set<(string, string)>        // (platform, chat id)

  predicate Digital(owners: Owners) { forall o :: o in owners ==> o.1 != "" && AllDigits(o.1) }

  /** owner_kept, as SQL takes it: with no platform the test is unknown for an owner's id, and an
      unknown WHERE leaves the row. */
  predicate Left(owners: Owners, r: Row) {
    r.value.Some? && exists o :: o in owners && o.1 == r.value.value && (r.platform.None? || r.platform.value == o.0)
  }

  predicate Rewritten(owners: Owners, r: Row) { r.value.Some? && !Left(owners, r) }

  predicate Clash(a: Row, b: Row) { a.scope == b.scope && a.value.Some? && a.value == b.value }

  predicate Unique(rows: seq<Row>) { forall i, j :: 0 <= i < j < |rows| ==> !Clash(rows[i], rows[j]) }

  // Moved aside: `~` and itself.
  function Aside(r: Row): Row { if r.value.Some? then r.(value := Some("~" + r.value.value)) else r }

  function Targets(owners: Owners, rows: seq<Row>): set<nat> { set i: nat | i < |rows| && Rewritten(owners, rows[i]) }

  // The column with these rows moved aside so far.
  function AsideAt(rows: seq<Row>, done: set<nat>): seq<Row> {
    seq(|rows|, i requires 0 <= i < |rows| => if i in done then Aside(rows[i]) else rows[i])
  }

  // The column with these rows given their fake so far.
  function FakedAt(rows: seq<Row>, done: set<nat>, fake: nat -> Option<string>, number: map<nat, nat>): seq<Row>
    requires done <= number.Keys
  {
    seq(|rows|, i requires 0 <= i < |rows| => if i in done then rows[i].(value := fake(number[i])) else rows[i])
  }

  // row_number() OVER (): each row its own number, in any order.
  ghost predicate Numbered(number: map<nat, nat>, count: nat) {
    && (forall i :: i in number ==> 0 < number[i] <= count)
    && forall i, j :: i in number && j in number && i != j ==> number[i] != number[j]
  }

  // No contact is another's with a `~` before it.
  ghost predicate NoneAside(owners: Owners, rows: seq<Row>) {
    forall i, j :: 0 <= i < |rows| && 0 <= j < |rows| && Rewritten(owners, rows[i]) ==> !Clash(Aside(rows[i]), rows[j])
  }

  // What makes fakes fit for a unique column: they differ, are never moved aside, and are no owner's.
  ghost predicate Fit(owners: Owners, rows: seq<Row>, fake: nat -> Option<string>, count: nat) {
    && (forall n :: 0 < n <= count ==> fake(n).Some? && fake(n).value != "" && fake(n).value[0] != '~')
    && (forall m, n :: 0 < m < n <= count ==> fake(m) != fake(n))
    && forall n, r :: 0 < n <= count && r in rows && Left(owners, r) ==> r.value != fake(n)
  }

  lemma AsideIsApart(a: Row, b: Row)
    ensures Clash(Aside(a), Aside(b)) ==> Clash(a, b)
    ensures !Clash(Aside(a), a)
  {
    if a.value.Some? && b.value.Some? {
      assert ("~" + a.value.value)[1..] == a.value.value && ("~" + b.value.value)[1..] == b.value.value;
      assert |"~" + a.value.value| > |a.value.value|;
    }
  }

  lemma AsideStepUnique(owners: Owners, rows: seq<Row>, done: set<nat>)
    requires Unique(rows) && NoneAside(owners, rows) && done <= Targets(owners, rows)
    ensures Unique(AsideAt(rows, done))
  {
    var now := AsideAt(rows, done);
    forall i, j | 0 <= i < j < |now| ensures !Clash(now[i], now[j]) {
      assert !Clash(rows[i], rows[j]);
      AsideIsApart(rows[i], rows[j]);
      if i in done && j !in done { assert !Clash(Aside(rows[i]), rows[j]); }
      if i !in done && j in done { assert !Clash(Aside(rows[j]), rows[i]); }
    }
  }

  /** Moving a unique column aside, in whatever order, never meets a row exactly when no contact is
      another's with a `~` before it. */
  lemma AsideIsUniqueIff(owners: Owners, rows: seq<Row>)
    requires Unique(rows)
    ensures (forall done :: done <= Targets(owners, rows) ==> Unique(AsideAt(rows, done))) <==> NoneAside(owners, rows)
  {
    if NoneAside(owners, rows) {
      forall done | done <= Targets(owners, rows) ensures Unique(AsideAt(rows, done)) {
        AsideStepUnique(owners, rows, done);
      }
    } else {
      var i, j :| 0 <= i < |rows| && 0 <= j < |rows| && Rewritten(owners, rows[i]) && Clash(Aside(rows[i]), rows[j]);
      AsideIsApart(rows[i], rows[i]);
      var done: set<nat> := {i};
      var now := AsideAt(rows, done);
      assert done <= Targets(owners, rows) && Clash(now[i], now[j]) && Clash(now[j], now[i]);
      assert !Unique(now);
    }
  }

  /** Two rows of one key, a contact and its `~` form: the first moved aside meets the second. */
  lemma TildeFormIsMet(scope: string, contact: string)
    ensures
      var rows := [Row(scope, None, Some(contact)), Row(scope, None, Some("~" + contact))];
      Unique(rows) && 0 in Targets({}, rows) && !Unique(AsideAt(rows, {0}))
  {
    var rows := [Row(scope, None, Some(contact)), Row(scope, None, Some("~" + contact))];
    assert |"~" + contact| > |contact|;
    assert Clash(AsideAt(rows, {0})[0], AsideAt(rows, {0})[1]);
  }

  lemma OwnersAreDigits(owners: Owners)
    requires Digital(owners)
    ensures forall o :: o in owners ==> o.1 != "" && o.1[0] != '~'
  {
    forall o | o in owners ensures o.1[0] != '~' { assert o.1[0] in o.1; }
  }

  lemma AsideAllShow(owners: Owners, rows: seq<Row>, i: nat)
    requires Digital(owners) && i < |rows|
    ensures var now := AsideAt(rows, Targets(owners, rows))[i];
      if Rewritten(owners, rows[i]) then now.value.Some? && now.value.value != "" && now.value.value[0] == '~' && !Left(owners, now)
      else now == rows[i]
  {
    OwnersAreDigits(owners);
  }

  lemma FakedStepUnique(owners: Owners, rows: seq<Row>, done: set<nat>, fake: nat -> Option<string>, number: map<nat, nat>)
    requires Digital(owners) && Unique(rows) && NoneAside(owners, rows)
    requires number.Keys == Targets(owners, rows) && Numbered(number, |number|) && done <= number.Keys
    requires Fit(owners, rows, fake, |number|)
    ensures Unique(FakedAt(AsideAt(rows, Targets(owners, rows)), done, fake, number))
  {
    var aside := AsideAt(rows, Targets(owners, rows));
    var now := FakedAt(aside, done, fake, number);
    AsideStepUnique(owners, rows, Targets(owners, rows));
    forall i, j | 0 <= i < |now| && 0 <= j < |now| && i != j && i in done ensures !Clash(now[i], now[j]) {
      FakeMeetsNone(owners, rows, done, fake, number, i, j);
    }
    forall i, j | 0 <= i < j < |now| ensures !Clash(now[i], now[j]) {
      if i !in done && j !in done { assert !Clash(aside[i], aside[j]); }
    }
  }

  lemma FakeMeetsNone(owners: Owners, rows: seq<Row>, done: set<nat>, fake: nat -> Option<string>, number: map<nat, nat>,
                      i: nat, j: nat)
    requires Digital(owners) && number.Keys == Targets(owners, rows) && Numbered(number, |number|) && done <= number.Keys
    requires Fit(owners, rows, fake, |number|) && i < |rows| && j < |rows| && i != j && i in done
    ensures var now := FakedAt(AsideAt(rows, Targets(owners, rows)), done, fake, number);
      !Clash(now[i], now[j]) && !Clash(now[j], now[i])
  {
    AsideAllShow(owners, rows, j);
    assert rows[j] in rows;
    if j in done {
      assert fake(number[i]) != fake(number[j]) by {
        if number[i] < number[j] { } else { assert number[j] < number[i]; }
      }
    }
  }

  class Table {
    var rows: seq<Row>
    ghost var past: seq<seq<Row>>        // the column after every single row update

    constructor (rows: seq<Row>)
      ensures this.rows == rows && past == []
    {
      this.rows, past := rows, [];
    }

    method Write(i: nat, value: Option<string>)
      requires i < |rows|
      modifies this
      ensures rows == old(rows)[i := old(rows)[i].(value := value)] && past == old(past) + [rows]
    {
      rows := rows[i := rows[i].(value := value)];
      past := past + [rows];
    }

    /** The first UPDATE of a unique column, its rows in any order. */
    method MoveAside(owners: Owners)
      requires Unique(rows) && NoneAside(owners, rows)
      modifies this
      ensures rows == AsideAt(old(rows), Targets(owners, old(rows)))
      ensures old(past) <= past && forall p :: p in past[|old(past)|..] ==> Unique(p)
    {
      var todo := Targets(owners, rows);
      while todo != {}
        invariant todo <= Targets(owners, old(rows))
        invariant rows == AsideAt(old(rows), Targets(owners, old(rows)) - todo)
        invariant old(past) <= past && forall p :: p in past[|old(past)|..] ==> Unique(p)
        decreases |todo|
      {
        var i :| i in todo;
        todo := todo - {i};
        AsideStepUnique(owners, old(rows), Targets(owners, old(rows)) - todo);
        Write(i, Some("~" + rows[i].value.value));
        assert rows == AsideAt(old(rows), Targets(owners, old(rows)) - todo);
      }
    }

    /** The numbers of row_number(), in any order. */
    method Number(targets: set<nat>) returns (number: map<nat, nat>)
      ensures number.Keys == targets && Numbered(number, |number|)
    {
      number := map[];
      var todo, next := targets, 0;
      while todo != {}
        invariant todo <= targets && number.Keys == targets - todo && |number| == next
        invariant Numbered(number, next)
        decreases |todo|
      {
        var i :| i in todo;
        todo, next := todo - {i}, next + 1;
        NumberedOneMore(number, i, next);
        OneKeyMore(number, i, next);
        number := number[i := next];
      }
    }

    /** The second UPDATE: each row moved aside gets the fake of its number, its rows in any order. */
    method GiveFakes(owners: Owners, fake: nat -> Option<string>, number: map<nat, nat>, ghost before: seq<Row>)
      requires Digital(owners) && Unique(before) && NoneAside(owners, before)
      requires number.Keys == Targets(owners, before) && Numbered(number, |number|) && Fit(owners, before, fake, |number|)
      requires rows == AsideAt(before, Targets(owners, before))
      modifies this
      ensures rows == FakedAt(before, number.Keys, fake, number)
      ensures old(past) <= past && forall p :: p in past[|old(past)|..] ==> Unique(p)
    {
      ghost var aside := rows;
      var todo := number.Keys;
      while todo != {}
        invariant todo <= number.Keys && rows == FakedAt(aside, number.Keys - todo, fake, number)
        invariant old(past) <= past && forall p :: p in past[|old(past)|..] ==> Unique(p)
        decreases |todo|
      {
        var i :| i in todo;
        assert number.Keys - (todo - {i}) - {i} == number.Keys - todo;
        todo := todo - {i};
        FakedStepUnique(owners, before, number.Keys - todo, fake, number);
        FakedNext(aside, number.Keys - todo, fake, number, i);
        Write(i, fake(number[i]));
      }
      assert number.Keys - {} == number.Keys;
      FakedOverAside(owners, before, fake, number);
    }

    /** scrub_sql for one unique column: moved aside, then each row its own fake. After every single
        row update, in any order, the column is unique. */
    method ScrubUnique(owners: Owners, fake: nat -> Option<string>) returns (number: map<nat, nat>)
      requires Digital(owners) && Unique(rows) && NoneAside(owners, rows)
      requires Fit(owners, rows, fake, |Targets(owners, rows)|)
      modifies this
      ensures number.Keys == Targets(owners, old(rows)) && Numbered(number, |number|)
      ensures rows == FakedAt(old(rows), number.Keys, fake, number)
      ensures old(past) <= past && forall p :: p in past[|old(past)|..] ==> Unique(p)
    {
      SameTargets(owners, rows);
      MoveAside(owners);
      number := Number(Targets(owners, rows));
      assert |number.Keys| == |number|;
      GiveFakes(owners, fake, number, old(rows));
    }

    /** A phone column scrubbed: unique all the way, and the guard then counts none in it. */
    method ScrubPhones()
      requires Unique(rows) && NoneAside({}, rows) && |rows| < 10_000_000
      modifies this
      ensures old(past) <= past && forall p :: p in past[|old(past)|..] ==> Unique(p)
      ensures |rows| == |old(rows)| && Real({}, rows, IsPhone, |rows|) == 0
    {
      PhonesAreFit(rows);
      var number := ScrubUnique({}, (n: nat) => Some(FakePhone(n)));
      PhonesCountNone(old(rows), number);
    }

    /** An email column. */
    method ScrubEmails()
      requires Unique(rows) && NoneAside({}, rows)
      modifies this
      ensures old(past) <= past && forall p :: p in past[|old(past)|..] ==> Unique(p)
      ensures |rows| == |old(rows)| && Real({}, rows, (v, n) => IsEmail(v), |rows|) == 0
    {
      EmailsAreFit(rows);
      var number := ScrubUnique({}, (n: nat) => Some(FakeEmail(n)));
      EmailsCountNone(old(rows), number);
    }

    /** A chat column, the owner's own chats left as they are. */
    method ScrubChats(owners: Owners)
      requires Digital(owners) && Unique(rows) && NoneAside(owners, rows)
      requires |rows| < 1_000_000_000_000_000 && forall o :: o in owners ==> !IsChat(o.1)
      modifies this
      ensures old(past) <= past && forall p :: p in past[|old(past)|..] ==> Unique(p)
      ensures |rows| == |old(rows)| && Real(owners, rows, (v, n) => IsChat(v), |rows|) == 0
      ensures forall i :: 0 <= i < |rows| && Left(owners, old(rows)[i]) ==> rows[i] == old(rows)[i]
    {
      ChatsAreFit(owners, rows);
      var number := ScrubUnique(owners, (n: nat) => Some(FakeChat(n)));
      ChatsCountNone(owners, old(rows), number);
    }
  }

  lemma FakedNext(rows: seq<Row>, done: set<nat>, fake: nat -> Option<string>, number: map<nat, nat>, i: nat)
    requires done <= number.Keys && i in done && i < |rows|
    ensures var before := FakedAt(rows, done - {i}, fake, number);
      FakedAt(rows, done, fake, number) == before[i := before[i].(value := fake(number[i]))]
  {
  }

  lemma FakedOverAside(owners: Owners, rows: seq<Row>, fake: nat -> Option<string>, number: map<nat, nat>)
    requires number.Keys == Targets(owners, rows)
    ensures FakedAt(AsideAt(rows, Targets(owners, rows)), number.Keys, fake, number) == FakedAt(rows, number.Keys, fake, number)
  {
  }

  // The second WHERE finds the rows the first one moved.
  lemma SameTargets(owners: Owners, rows: seq<Row>)
    requires Digital(owners)
    ensures Targets(owners, AsideAt(rows, Targets(owners, rows))) == Targets(owners, rows)
  {
    forall i: nat | i < |rows|
      ensures Rewritten(owners, AsideAt(rows, Targets(owners, rows))[i]) <==> Rewritten(owners, rows[i])
    {
      AsideAllShow(owners, rows, i);
    }
  }

  lemma OneKeyMore(number: map<nat, nat>, i: nat, n: nat)
    requires i !in number
    ensures |number[i := n]| == |number| + 1
  {
    assert number[i := n].Keys == number.Keys + {i};
    assert |number.Keys| == |number| && |number[i := n].Keys| == |number[i := n]|;
  }

  lemma NumberedOneMore(number: map<nat, nat>, i: nat, next: nat)
    requires i !in number && next > 0 && Numbered(number, next - 1)
    ensures Numbered(number[i := next], next)
  {
  }

  // --- The guard -------------------------------------------------------------------------

  /** guard_sql: how many values are neither a fake nor the owner's. */
  function Real(owners: Owners, rows: seq<Row>, isFake: (string, nat) -> bool, count: nat): nat {
    if rows == [] then 0 else
    var r := rows[|rows| - 1];
    Real(owners, rows[..|rows| - 1], isFake, count) +
      if r.value.Some? && !isFake(r.value.value, count) && !Left(owners, r) then 1 else 0
  }

  lemma {:induction false} NoneIsReal(owners: Owners, rows: seq<Row>, isFake: (string, nat) -> bool, count: nat)
    requires forall r :: r in rows && r.value.Some? ==> isFake(r.value.value, count) || Left(owners, r)
    ensures Real(owners, rows, isFake, count) == 0
  {
    if rows != [] {
      assert rows[|rows| - 1] in rows;
      NoneIsReal(owners, rows[..|rows| - 1], isFake, count);
    }
  }

  lemma TargetsCount(owners: Owners, rows: seq<Row>)
    ensures |Targets(owners, rows)| <= |rows|
  {
    IndicesCount(Targets(owners, rows), |rows|);
  }

  lemma {:induction false} IndicesCount(s: set<nat>, n: nat)
    requires forall i :: i in s ==> i < n
    ensures |s| <= n
  {
    if n == 0 {
      assert s == {};
    } else {
      IndicesCount(s - {n - 1}, n - 1);
      assert s <= (s - {n - 1}) + {n - 1};
    }
  }

  /** What the scrub leaves, the guard counts none of, whatever was there before and whoever is kept. */
  lemma GuardCountsNone(owners: Owners, rows: seq<Row>, fake: nat -> Option<string>, isFake: (string, nat) -> bool,
                        number: map<nat, nat>)
    requires number.Keys == Targets(owners, rows) && Numbered(number, |number|)
    requires forall n :: 0 < n <= |rows| && fake(n).Some? ==> isFake(fake(n).value, |rows|)
    ensures Real(owners, FakedAt(rows, number.Keys, fake, number), isFake, |rows|) == 0
  {
    var now := FakedAt(rows, number.Keys, fake, number);
    TargetsCount(owners, rows);
    assert |number| == |number.Keys|;
    forall r | r in now && r.value.Some? ensures isFake(r.value.value, |rows|) || Left(owners, r) {
      var i :| 0 <= i < |now| && now[i] == r;
      if i in number {
        assert r.value == fake(number[i]);
      } else {
        assert r == rows[i];
      }
    }
    NoneIsReal(owners, now, isFake, |rows|);
  }

  // --- The three kinds of column -----------------------------------------------------------

  /** The guard's phones in a column of any length; below ten million rows fit for the two phases. */
  lemma PhonesAreFit(rows: seq<Row>)
    ensures |rows| < 10_000_000 ==> Fit({}, rows, (n: nat) => Some(FakePhone(n)), |Targets({}, rows)|)
    ensures forall n :: 0 < n <= |rows| ==> IsPhone(FakePhone(n), |rows|)
  {
    TargetsCount({}, rows);
    PhonesDifferIff(|rows|);
    forall n | 0 < n <= |rows| ensures IsPhone(FakePhone(n), |rows|) { PhoneIsPhone(n, |rows|); }
  }

  lemma EmailsAreFit(rows: seq<Row>)
    ensures Fit({}, rows, (n: nat) => Some(FakeEmail(n)), |Targets({}, rows)|)
    ensures forall n :: IsEmail(FakeEmail(n))
  {
    forall n ensures IsEmail(FakeEmail(n)) { EmailIsEmail(n); }
    forall m, n | 0 < m < n <= |Targets({}, rows)| ensures FakeEmail(m) != FakeEmail(n) { EmailsDiffer(m, n); }
  }

  /** A chat column, the owner's own chats kept as long as none of them is a fake. */
  lemma ChatsAreFit(owners: Owners, rows: seq<Row>)
    requires |rows| < 1_000_000_000_000_000 && forall o :: o in owners ==> !IsChat(o.1)
    ensures Fit(owners, rows, (n: nat) => Some(FakeChat(n)), |Targets(owners, rows)|)
    ensures forall n :: 0 < n <= |rows| ==> IsChat(FakeChat(n))
  {
    TargetsCount(owners, rows);
    forall n | 0 < n <= |rows| ensures IsChat(FakeChat(n)) && FakeChat(n) != "" && FakeChat(n)[0] != '~' {
      ChatIsChat(n);
      assert FakeChat(n)[0] in FakeChat(n);
    }
    forall m, n | 0 < m < n <= |Targets(owners, rows)| ensures FakeChat(m) != FakeChat(n) { ChatsDiffer(m, n); }
  }

  // --- Scrubbed, the guard finds nothing ---------------------------------------------------

  lemma PhonesCountNone(rows: seq<Row>, number: map<nat, nat>)
    requires number.Keys == Targets({}, rows) && Numbered(number, |number|)
    ensures Real({}, FakedAt(rows, number.Keys, (n: nat) => Some(FakePhone(n)), number), IsPhone, |rows|) == 0
  {
    PhonesAreFit(rows);
    GuardCountsNone({}, rows, (n: nat) => Some(FakePhone(n)), IsPhone, number);
  }

  lemma EmailsCountNone(rows: seq<Row>, number: map<nat, nat>)
    requires number.Keys == Targets({}, rows) && Numbered(number, |number|)
    ensures Real({}, FakedAt(rows, number.Keys, (n: nat) => Some(FakeEmail(n)), number), (v, n) => IsEmail(v), |rows|) == 0
  {
    EmailsAreFit(rows);
    GuardCountsNone({}, rows, (n: nat) => Some(FakeEmail(n)), (v, n) => IsEmail(v), number);
  }

  lemma ChatsCountNone(owners: Owners, rows: seq<Row>, number: map<nat, nat>)
    requires |rows| < 1_000_000_000_000_000 && forall o :: o in owners ==> !IsChat(o.1)
    requires number.Keys == Targets(owners, rows) && Numbered(number, |number|)
    ensures Real(owners, FakedAt(rows, number.Keys, (n: nat) => Some(FakeChat(n)), number), (v, n) => IsChat(v), |rows|) == 0
  {
    ChatsAreFit(owners, rows);
    GuardCountsNone(owners, rows, (n: nat) => Some(FakeChat(n)), (v, n) => IsChat(v), number);
  }
}

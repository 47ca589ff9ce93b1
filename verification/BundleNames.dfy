/** A bundle's name carries its time: written, read back, and compared as text
    (scripts/bundle/bundle_plan.py, scripts/move/cluster_move.py). */
module BundleNames {
  import opened Numerals
  import opened Wrappers
  import opened Strings

  const PREFIX := "txnet-backup-"
  const SUFFIX := ".tar.zst.gpg"
  const CHECKSUM := ".sha256"
  const PARTIAL := ".partial"
  const WIDTH := 20                     // len("2026-10-23_15-30-12Z")

  // A UTC moment to the second, as datetime holds it.
  datatype Time = Time(year: nat, month: nat, day: nat, hour: nat, minute: nat, second: nat)

  predicate Leap(year: nat) { year % 4 == 0 && (year % 100 != 0 || year % 400 == 0) }

  function DaysIn(year: nat, month: nat): nat {
    if month == 2 then (if Leap(year) then 29 else 28) else if month in {4, 6, 9, 11} then 30 else 31
  }

  predicate Real(t: Time) {
    && 1 <= t.year <= 9999 && 1 <= t.month <= 12 && 1 <= t.day <= DaysIn(t.year, t.month)
    && t.hour < 24 && t.minute < 60 && t.second < 60
  }

  // --- Writing a name --------------------------------------------------------------

  function Two(n: nat): string
    requires n < 100
  {
    [Digit(n / 10), Digit(n % 10)]
  }

  /** strftime("%Y-%m-%d_%H-%M-%SZ"): the year unpadded, as glibc prints it. */
  function Stamp(t: Time): string
    requires Real(t)
  {
    Shown(t.year) + "-" + Two(t.month) + "-" + Two(t.day) + "_" +
    Two(t.hour) + "-" + Two(t.minute) + "-" + Two(t.second) + "Z"
  }

  /** bundle_name */
  function BundleName(project: string, t: Time): string
    requires Real(t)
  {
    PREFIX + project + "-" + Stamp(t) + SUFFIX
  }

  // --- Reading it back ---------------------------------------------------------------

  // Two characters as a field's number; a day may be written with a space before its digit.
  function Field(s: string, spaced: bool): Option<nat>
    requires |s| == 2
  {
    if AllDigits(s) then Some(Value(s)) else
    if spaced && s[0] == ' ' && AllDigits(s[1..]) then Some(Value(s[1..])) else None
  }

  predicate Shaped(s: string)
    requires |s| == WIDTH
  {
    AllDigits(s[..4]) && s[4] == '-' && s[7] == '-' && s[10] == '_' && s[13] == '-' && s[16] == '-' && s[19] in "Zz"
  }

  /** strptime of a stamp of the full width; the letter case of the Z does not matter. */
  function Parsed(s: string): Option<Time>
    requires |s| == WIDTH
  {
    if !Shaped(s) then None else
    var month, day, hour := Field(s[5..7], false), Field(s[8..10], true), Field(s[11..13], false);
    var minute, second := Field(s[14..16], false), Field(s[17..19], false);
    if month.None? || day.None? || hour.None? || minute.None? || second.None? then None else
    var t := Time(Value(s[..4]), month.value, day.value, hour.value, minute.value, second.value);
    if Real(t) then Some(t) else None
  }

  // A finished bundle's stamp: the fixed-width tail, since it has dashes of its own and so may a project.
  function StampOf(name: string): Option<string> {
    if !(PREFIX <= name && EndsWith(name, SUFFIX)) then None else
    var rest := name[..|name| - |SUFFIX|];
    Some(if |rest| < WIDTH then rest else rest[|rest| - WIDTH..])
  }

  /** bundle_time */
  function BundleTime(name: string): Option<Time> {
    var stamp := StampOf(name);
    if stamp.None? || |stamp.value| != WIDTH then None else Parsed(stamp.value)
  }

  // --- The codec ---------------------------------------------------------------------

  lemma TwoBack(n: nat)
    requires n < 100
    ensures AllDigits(Two(n)) && Value(Two(n)) == n
  {
    DigitBack(n / 10);
    DigitBack(n % 10);
    assert Two(n)[..1] == [Digit(n / 10)] && [Digit(n / 10)][..0] == "";
  }

  lemma FieldBack(n: nat, spaced: bool)
    requires n < 100
    ensures Field(Two(n), spaced) == Some(n)
  {
    TwoBack(n);
  }

  lemma YearWidth(year: nat)
    requires 1 <= year <= 9999
    ensures |Shown(year)| <= 4 && (|Shown(year)| == 4 <==> year >= 1000)
  {
    assert Power(3) == 1000 && Power(4) == 10000;
    ShownLength(year, 4);
    if year >= 1000 { ShownAtLeast(year, 3); } else { ShownLength(year, 3); }
  }

  lemma Laid(year: string, month: string, day: string, hour: string, minute: string, second: string)
    requires |year| == 4 && |month| == |day| == |hour| == |minute| == |second| == 2
    ensures var s := year + "-" + month + "-" + day + "_" + hour + "-" + minute + "-" + second + "Z";
      && |s| == WIDTH && s[..4] == year && s[4] == '-' && s[5..7] == month && s[7] == '-' && s[8..10] == day && s[10] == '_'
      && s[11..13] == hour && s[13] == '-' && s[14..16] == minute && s[16] == '-' && s[17..19] == second && s[19] == 'Z'
  {
    var s := year + "-" + month + "-" + day + "_" + hour + "-" + minute + "-" + second + "Z";
    var date := year + "-" + month + "-" + day;
    assert s[..10] == date && s[11..] == hour + "-" + minute + "-" + second + "Z";
    assert s[11..13] == s[11..][..2] && s[14..16] == s[11..][3..5] && s[17..19] == s[11..][6..8];
  }

  lemma StampParts(t: Time)
    requires Real(t) && t.year >= 1000
    ensures var s := Stamp(t);
      && |s| == WIDTH && s[..4] == Shown(t.year) && s[4] == '-' && s[5..7] == Two(t.month) && s[7] == '-'
      && s[8..10] == Two(t.day) && s[10] == '_' && s[11..13] == Two(t.hour) && s[13] == '-'
      && s[14..16] == Two(t.minute) && s[16] == '-' && s[17..19] == Two(t.second) && s[19] == 'Z'
  {
    YearWidth(t.year);
    Laid(Shown(t.year), Two(t.month), Two(t.day), Two(t.hour), Two(t.minute), Two(t.second));
  }

  lemma ParsedUndoesStamp(t: Time)
    requires Real(t) && t.year >= 1000
    ensures |Stamp(t)| == WIDTH && Parsed(Stamp(t)) == Some(t)
  {
    StampParts(t);
    ShownBack(t.year);
    FieldBack(t.month, false);
    FieldBack(t.day, true);
    FieldBack(t.hour, false);
    FieldBack(t.minute, false);
    FieldBack(t.second, false);
  }

  lemma LastOf(front: string, stamp: string)
    requires |stamp| == WIDTH
    ensures (front + stamp)[|front + stamp| - WIDTH..] == stamp
  {
  }

  function Stem(project: string, t: Time): string
    requires Real(t)
  {
    PREFIX + project + "-" + Stamp(t)
  }

  lemma StemStarts(project: string, t: Time)
    requires Real(t)
    ensures PREFIX <= Stem(project, t) && BundleName(project, t) == Stem(project, t) + SUFFIX
    ensures |Stem(project, t)| >= 14 + |Stamp(t)|
  {
    var rest := "-" + Stamp(t);
    assert Stem(project, t) == PREFIX + (project + rest);
  }

  // What bundle_time reads of a name.
  lemma TailIsRead(project: string, t: Time)
    requires Real(t)
    ensures |Stem(project, t)| >= WIDTH
    ensures StampOf(BundleName(project, t)) == Some(Stem(project, t)[|Stem(project, t)| - WIDTH..])
  {
    StemStarts(project, t);
    ShortStamp(t);
    StampOfRest(Stem(project, t));
  }

  lemma StampOfRest(rest: string)
    requires PREFIX <= rest && |rest| >= WIDTH
    ensures StampOf(rest + SUFFIX) == Some(rest[|rest| - WIDTH..])
  {
    assert (rest + SUFFIX)[..|rest|] == rest && EndsWith(rest + SUFFIX, SUFFIX);
  }

  /** bundle_time undoes bundle_name for every project, dashes and dots included. */
  lemma TimeUndoesName(project: string, t: Time)
    requires Real(t) && t.year >= 1000
    ensures BundleTime(BundleName(project, t)) == Some(t)
  {
    TailIsRead(project, t);
    ParsedUndoesStamp(t);
    LastOf(PREFIX + project + "-", Stamp(t));
  }

  lemma ShortYearIsNotShaped(project: string, t: Time)
    requires Real(t) && t.year < 1000
    ensures |Stem(project, t)| >= WIDTH && !Shaped(Stem(project, t)[|Stem(project, t)| - WIDTH..])
  {
    YearWidth(t.year);
    ShortStamp(t);
    DashInTheYear(PREFIX + project, Stamp(t));
  }

  lemma NotShaped(name: string, stamp: string)
    requires StampOf(name) == Some(stamp) && |stamp| == WIDTH && !Shaped(stamp)
    ensures BundleTime(name).None?
  {
  }

  lemma ShortYearHasNoTime(project: string, t: Time)
    requires Real(t) && t.year < 1000
    ensures BundleTime(BundleName(project, t)).None?
  {
    TailIsRead(project, t);
    ShortYearIsNotShaped(project, t);
    NotShaped(BundleName(project, t), Stem(project, t)[|Stem(project, t)| - WIDTH..]);
  }

  lemma ShortStamp(t: Time)
    requires Real(t)
    ensures 17 <= |Stamp(t)| == |Shown(t.year)| + 16
  {
    ShownBack(t.year);
  }

  // Cut to the width, a shorter stamp has the dash before it among the year's four characters.
  lemma DashInTheYear(front: string, stamp: string)
    requires 17 <= |stamp| < WIDTH && |front| >= 3
    ensures var rest := front + "-" + stamp; |rest| >= WIDTH && !Shaped(rest[|rest| - WIDTH..])
  {
    var rest := front + "-" + stamp;
    var tail := rest[|rest| - WIDTH..];
    var at := WIDTH - 1 - |stamp|;
    assert rest[|front|] == '-' && tail[at] == '-' && tail[..4][at] in tail[..4];
  }

  /** And it does so exactly when the year has its four digits, which strftime does not pad. */
  lemma TimeUndoesNameIff(project: string, t: Time)
    requires Real(t)
    ensures BundleTime(BundleName(project, t)) == Some(t) <==> t.year >= 1000
  {
    if t.year >= 1000 { TimeUndoesName(project, t); } else { ShortYearHasNoTime(project, t); }
  }

  /** A checksum and a half-written bundle are no bundles, whatever they are beside. */
  lemma OthersAreNoBundles(name: string)
    ensures BundleTime(name + CHECKSUM).None? && BundleTime(name + PARTIAL).None?
  {
    assert (name + CHECKSUM)[|name + CHECKSUM| - 1] == '6';
    assert (name + PARTIAL)[|name + PARTIAL| - 1] == 'l';
    forall s | EndsWith(s, SUFFIX) ensures s[|s| - 1] == 'g' {
      assert s[|s| - 1] == s[|s| - |SUFFIX|..][|SUFFIX| - 1];
    }
  }

  // --- Order -----------------------------------------------------------------------------

  /** Python's `<` on strings. */
  predicate Less(a: string, b: string) {
    b != "" && (a == "" || a[0] < b[0] || (a[0] == b[0] && Less(a[1..], b[1..])))
  }

  predicate Earlier(a: Time, b: Time) {
    a.year < b.year || (a.year == b.year && (a.month < b.month || (a.month == b.month && (a.day < b.day ||
      (a.day == b.day && (a.hour < b.hour || (a.hour == b.hour && (a.minute < b.minute ||
        (a.minute == b.minute && a.second < b.second)))))))))
  }

  lemma {:induction false} LessAfter(p: string, a: string, b: string)
    ensures Less(p + a, p + b) <==> Less(a, b)
  {
    if p == "" {
      assert p + a == a && p + b == b;
    } else {
      assert (p + a)[1..] == p[1..] + a && (p + b)[1..] == p[1..] + b;
      LessAfter(p[1..], a, b);
    }
  }

  // Texts of one width are compared first, what follows only when they are the same.
  lemma {:induction false} LessFirst(a: string, b: string, x: string, y: string)
    requires |a| == |b|
    ensures Less(a + x, b + y) <==> Less(a, b) || (a == b && Less(x, y))
  {
    if a == "" {
      assert a + x == x && b + y == y;
    } else {
      assert (a + x)[1..] == a[1..] + x && (b + y)[1..] == b[1..] + y;
      LessFirst(a[1..], b[1..], x, y);
      assert a == [a[0]] + a[1..] && b == [b[0]] + b[1..];
    }
  }

  lemma DigitsCompare(c: char, d: char)
    requires IsDigit(c) && IsDigit(d)
    ensures c < d <==> DigitValue(c) < DigitValue(d)
    ensures c == d <==> DigitValue(c) == DigitValue(d)
  {
  }

  // Numbers of one width are ordered as their text.
  lemma {:induction false} NumbersCompare(a: string, b: string)
    requires |a| == |b| && AllDigits(a) && AllDigits(b)
    ensures Less(a, b) <==> Value(a) < Value(b)
    ensures a == b <==> Value(a) == Value(b)
  {
    if a != "" {
      var n := |a| - 1;
      NumbersCompare(a[..n], b[..n]);
      DigitsCompare(a[n], b[n]);
      assert a == a[..n] + [a[n]] && b == b[..n] + [b[n]];
      LessFirst(a[..n], b[..n], [a[n]], [b[n]]);
      OneCompare(a[n], b[n]);
    }
  }

  lemma OneCompare(c: char, d: char)
    ensures Less([c], [d]) <==> c < d
  {
    assert [c][1..] == "" && [d][1..] == "";
  }

  // One field and the separator after it.
  lemma FieldFirst(m: nat, n: nat, sep: string, x: string, y: string)
    requires m < 100 && n < 100
    ensures Less(Two(m) + sep + x, Two(n) + sep + y) <==> m < n || (m == n && Less(x, y))
  {
    TwoBack(m);
    TwoBack(n);
    NumbersCompare(Two(m), Two(n));
    assert Two(m) + sep + x == Two(m) + (sep + x) && Two(n) + sep + y == Two(n) + (sep + y);
    LessFirst(Two(m), Two(n), sep + x, sep + y);
    LessAfter(sep, x, y);
  }

  // A stamp, one field after another.
  function Tail(t: Time, fields: nat): string
    requires Real(t) && fields <= 5
  {
    match fields
    case 0 => ""
    case 1 => Two(t.second) + "Z" + Tail(t, 0)
    case 2 => Two(t.minute) + "-" + Tail(t, 1)
    case 3 => Two(t.hour) + "-" + Tail(t, 2)
    case 4 => Two(t.day) + "_" + Tail(t, 3)
    case _ => Two(t.month) + "-" + Tail(t, 4)
  }

  lemma StampIsTail(t: Time)
    requires Real(t)
    ensures Stamp(t) == Shown(t.year) + ("-" + Tail(t, 5))
  {
    assert Tail(t, 1) == Two(t.second) + "Z";
    assert Tail(t, 3) == Two(t.hour) + "-" + Two(t.minute) + "-" + Two(t.second) + "Z";
    assert Tail(t, 5) == Two(t.month) + "-" + Two(t.day) + "_" + Tail(t, 3);
  }

  lemma TailsCompare(a: Time, b: Time)
    requires Real(a) && Real(b)
    ensures Less(Tail(a, 5), Tail(b, 5)) <==> Earlier(a.(year := 1), b.(year := 1))
  {
    assert !Less("", "");
    FieldFirst(a.second, b.second, "Z", Tail(a, 0), Tail(b, 0));
    FieldFirst(a.minute, b.minute, "-", Tail(a, 1), Tail(b, 1));
    FieldFirst(a.hour, b.hour, "-", Tail(a, 2), Tail(b, 2));
    FieldFirst(a.day, b.day, "_", Tail(a, 3), Tail(b, 3));
    FieldFirst(a.month, b.month, "-", Tail(a, 4), Tail(b, 4));
  }

  lemma StampsCompare(a: Time, b: Time)
    requires Real(a) && Real(b) && a.year >= 1000 && b.year >= 1000
    ensures Less(Stamp(a), Stamp(b)) <==> Earlier(a, b)
  {
    StampIsTail(a);
    StampIsTail(b);
    YearWidth(a.year);
    YearWidth(b.year);
    ShownBack(a.year);
    ShownBack(b.year);
    NumbersCompare(Shown(a.year), Shown(b.year));
    LessFirst(Shown(a.year), Shown(b.year), "-" + Tail(a, 5), "-" + Tail(b, 5));
    LessAfter("-", Tail(a, 5), Tail(b, 5));
    TailsCompare(a, b);
  }

  /** One project's names compare as text the way their times do. */
  lemma NamesCompareAsTimes(project: string, a: Time, b: Time)
    requires Real(a) && Real(b) && a.year >= 1000 && b.year >= 1000
    ensures Less(BundleName(project, a), BundleName(project, b)) <==> Earlier(a, b)
  {
    var front := PREFIX + project + "-";
    assert BundleName(project, a) == front + (Stamp(a) + SUFFIX) && BundleName(project, b) == front + (Stamp(b) + SUFFIX);
    LessAfter(front, Stamp(a) + SUFFIX, Stamp(b) + SUFFIX);
    StampParts(a);
    StampParts(b);
    LessFirst(Stamp(a), Stamp(b), SUFFIX, SUFFIX);
    NeverLess(SUFFIX);
    StampsCompare(a, b);
  }

  lemma {:induction false} NeverLess(s: string)
    ensures !Less(s, s)
  {
    if s != "" {
      NeverLess(s[1..]);
    }
  }

  // --- The move's newest bundle --------------------------------------------------------------

  function MaxName(names: seq<string>): string
    requires names != []
  {
    if |names| == 1 then names[0] else
    var best, last := MaxName(names[..|names| - 1]), names[|names| - 1];
    if Less(best, last) then last else best
  }

  ghost predicate NamesOf(project: string, times: seq<Time>, names: seq<string>) {
    && |names| == |times|
    && forall i :: 0 <= i < |times| ==> Real(times[i]) && times[i].year >= 1000 && names[i] == BundleName(project, times[i])
  }

  // The names are ordered as the times.
  ghost predicate SameOrder(times: seq<Time>, names: seq<string>) {
    && |names| == |times|
    && forall i, j :: 0 <= i < |times| && 0 <= j < |times| ==> (Less(names[i], names[j]) <==> Earlier(times[i], times[j]))
  }

  lemma {:induction false} GreatestIsLatest(times: seq<Time>, names: seq<string>) returns (newest: nat)
    requires SameOrder(times, names) && names != []
    ensures newest < |names| && MaxName(names) == names[newest]
    ensures forall i :: 0 <= i < |times| ==> !Earlier(times[newest], times[i])
  {
    var n := |names| - 1;
    if n == 0 {
      newest := 0;
      NeverLess(names[0]);
      assert Less(names[0], names[0]) <==> Earlier(times[0], times[0]);
    } else {
      newest := GreatestIsLatest(times[..n], names[..n]);
      NeverLess(names[n]);
      assert Less(names[newest], names[n]) <==> Earlier(times[newest], times[n]);
      if Less(names[newest], names[n]) {
        LaterThanAll(times, newest, n);
        newest := n;
      }
    }
  }

  lemma LaterThanAll(times: seq<Time>, old_: nat, n: nat)
    requires old_ < n == |times| - 1 && Earlier(times[old_], times[n])
    requires forall i :: 0 <= i < n ==> !Earlier(times[old_], times[..n][i])
    ensures forall i :: 0 <= i < |times| ==> !Earlier(times[n], times[i])
  {
    forall i | 0 <= i < |times| ensures !Earlier(times[n], times[i]) {
      if i < n { assert times[..n][i] == times[i]; }
    }
  }

  /** newest_bundle: the greatest name of one project's is the one whose time no other's is after. */
  lemma GreatestNameIsNewest(project: string, times: seq<Time>, names: seq<string>) returns (newest: Time)
    requires NamesOf(project, times, names) && names != []
    ensures newest in times && BundleTime(MaxName(names)) == Some(newest)
    ensures forall t :: t in times ==> !Earlier(newest, t)
  {
    forall i, j | 0 <= i < |times| && 0 <= j < |times| ensures Less(names[i], names[j]) <==> Earlier(times[i], times[j]) {
      NamesCompareAsTimes(project, times[i], times[j]);
    }
    var i := GreatestIsLatest(times, names);
    newest := times[i];
    TimeUndoesName(project, newest);
  }

  /** bundle_created: the 20 characters before the first dot, in the manifest's form. */
  function BundleCreated(name: string): string {
    var stem := name[..FirstDot(name)];
    var stamp := if |stem| <= WIDTH then stem else stem[|stem| - WIDTH..];
    Head(stamp, 10) + "T" + Colons(Rest(stamp, 11))
  }

  // Slices, as Python cuts a text that may be shorter.
  function Head(s: string, n: nat): string { if |s| <= n then s else s[..n] }
  function Rest(s: string, n: nat): string { if |s| <= n then "" else s[n..] }

  function FirstDot(s: string): (n: nat)
    ensures n <= |s| && (n < |s| ==> s[n] == '.') && '.' !in s[..n]
  {
    if s == "" || s[0] == '.' then 0 else
    var n := FirstDot(s[1..]);
    assert s[..n + 1] == [s[0]] + s[1..][..n];
    n + 1
  }

  // s.replace("-", ":")
  function Colons(s: string): string {
    if s == "" then "" else [if s[0] == '-' then ':' else s[0]] + Colons(s[1..])
  }

  /** The manifest's `created`. */
  function Iso(t: Time): string
    requires Real(t)
  {
    Shown(t.year) + "-" + Two(t.month) + "-" + Two(t.day) + "T" +
    Two(t.hour) + ":" + Two(t.minute) + ":" + Two(t.second) + "Z"
  }

  lemma {:induction false} ColonsSplit(a: string, b: string)
    ensures Colons(a + b) == Colons(a) + Colons(b)
  {
    if a == "" {
      assert a + b == b;
    } else {
      assert (a + b)[1..] == a[1..] + b;
      ColonsSplit(a[1..], b);
    }
  }

  lemma {:induction false} ColonsKeepDigits(s: string)
    requires AllDigits(s)
    ensures Colons(s) == s
  {
    if s != "" {
      ColonsKeepDigits(s[1..]);
      assert s[0] in s && s == [s[0]] + s[1..];
    }
  }

  lemma {:induction false} DotAfter(a: string, b: string)
    requires '.' !in a
    ensures FirstDot(a + b) == |a| + FirstDot(b)
  {
    if a == "" {
      assert a + b == b;
    } else {
      assert (a + b)[1..] == a[1..] + b;
      DotAfter(a[1..], b);
    }
  }

  lemma StampHasNoDot(t: Time)
    requires Real(t)
    ensures '.' !in Stamp(t)
  {
    ShownBack(t.year);
    TwoBack(t.month);
    TwoBack(t.day);
    TwoBack(t.hour);
    TwoBack(t.minute);
    TwoBack(t.second);
  }

  lemma ClockColons(t: Time)
    requires Real(t)
    ensures Colons(Two(t.hour) + "-" + Two(t.minute) + "-" + Two(t.second) + "Z") ==
      Two(t.hour) + ":" + Two(t.minute) + ":" + Two(t.second) + "Z"
  {
    var hour, minute, second := Two(t.hour), Two(t.minute), Two(t.second);
    TwoBack(t.hour);
    TwoBack(t.minute);
    TwoBack(t.second);
    ColonsKeepDigits(hour);
    ColonsKeepDigits(minute);
    ColonsKeepDigits(second);
    ColonsSplit(hour + "-" + minute + "-" + second, "Z");
    ColonsSplit(hour + "-" + minute + "-", second);
    ColonsSplit(hour + "-" + minute, "-");
    ColonsSplit(hour + "-", minute);
    ColonsSplit(hour, "-");
    assert Colons("-") == ":" && Colons("Z") == "Z";
  }

  lemma CreatedOf(front: string, stamp: string)
    requires |stamp| == WIDTH && '.' !in front && '.' !in stamp
    ensures BundleCreated(front + stamp + SUFFIX) == stamp[..10] + "T" + Colons(stamp[11..])
  {
    var stem := front + stamp;
    DotAfter(stem, SUFFIX);
    assert (stem + SUFFIX)[..|stem|] == stem;
    LastOf(front, stamp);
  }

  /** For a project without dots, the move reads the very time the bundle was made at. */
  lemma CreatedIsTheTime(project: string, t: Time)
    requires Real(t) && t.year >= 1000 && '.' !in project
    ensures BundleCreated(BundleName(project, t)) == Iso(t)
  {
    StampHasNoDot(t);
    StampClock(t);
    StemStarts(project, t);
    CreatedOf(PREFIX + project + "-", Stamp(t));
    ClockColons(t);
  }

  lemma StampClock(t: Time)
    requires Real(t) && t.year >= 1000
    ensures |Stamp(t)| == WIDTH && Stamp(t)[..10] == Shown(t.year) + "-" + Two(t.month) + "-" + Two(t.day)
    ensures Stamp(t)[11..] == Two(t.hour) + "-" + Two(t.minute) + "-" + Two(t.second) + "Z"
  {
    YearWidth(t.year);
    var date, clock := Shown(t.year) + "-" + Two(t.month) + "-" + Two(t.day), Two(t.hour) + "-" + Two(t.minute) + "-" + Two(t.second) + "Z";
    assert Stamp(t) == date + "_" + clock;
  }

  /** A project with a dot hides the time: the move would read the same of every bundle of it. */
  lemma DottedProjectHidesTheTime(project: string, a: Time, b: Time)
    requires Real(a) && Real(b) && '.' in project
    ensures BundleCreated(BundleName(project, a)) == BundleCreated(BundleName(project, b))
  {
    NameIsProjectAnd(project, a);
    NameIsProjectAnd(project, b);
    SameToTheDot(PREFIX, project, "-" + Stamp(a) + SUFFIX, "-" + Stamp(b) + SUFFIX);
  }

  lemma IsosDiffer(a: Time, b: Time)
    requires Real(a) && Real(b) && a.second / 10 == b.second / 10 && a.second % 10 != b.second % 10
    ensures Iso(a) != Iso(b)
  {
    assert Iso(a)[|Iso(a)| - 2] != Iso(b)[|Iso(b)| - 2];
  }

  /** The move reads the very time of each bundle of a project exactly if its name has no dot. */
  lemma CreatedIsTheTimeIff(project: string)
    ensures (forall t :: Real(t) && t.year >= 1000 ==> BundleCreated(BundleName(project, t)) == Iso(t)) <==>
      '.' !in project
  {
    if '.' in project {
      var a, b := Time(2026, 1, 1, 0, 0, 0), Time(2026, 1, 1, 0, 0, 1);
      DottedProjectHidesTheTime(project, a, b);
      IsosDiffer(a, b);
    } else {
      forall t | Real(t) && t.year >= 1000 ensures BundleCreated(BundleName(project, t)) == Iso(t) {
        CreatedIsTheTime(project, t);
      }
    }
  }

  lemma SameToTheDot(front: string, project: string, x: string, y: string)
    requires '.' !in front && '.' in project
    ensures BundleCreated(front + project + x) == BundleCreated(front + project + y)
  {
    DotInside(front, project, x);
    DotInside(front, project, y);
    CreatedToTheDot(front + project + x, front + project + y);
  }

  lemma CreatedToTheDot(x: string, y: string)
    requires x[..FirstDot(x)] == y[..FirstDot(y)]
    ensures BundleCreated(x) == BundleCreated(y)
  {
  }

  lemma NameIsProjectAnd(project: string, t: Time)
    requires Real(t)
    ensures BundleName(project, t) == PREFIX + project + ("-" + Stamp(t) + SUFFIX)
  {
  }

  lemma DotInside(front: string, project: string, rest: string)
    requires '.' !in front && '.' in project
    ensures FirstDot(front + project + rest) == |front| + FirstDot(project) <= |front + project|
    ensures (front + project + rest)[..|front| + FirstDot(project)] == (front + project)[..|front| + FirstDot(project)]
  {
    assert front + project + rest == front + (project + rest);
    DotAfter(front, project + rest);
    DotBefore(project, rest);
  }

  lemma {:induction false} DotBefore(a: string, b: string)
    requires '.' in a
    ensures FirstDot(a + b) == FirstDot(a) < |a|
  {
    if a[0] != '.' {
      assert (a + b)[1..] == a[1..] + b;
      DotBefore(a[1..], b);
    }
  }
}

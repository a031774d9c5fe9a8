/**
 Timestamps as the store writes them: fixed-width UTC text (section 5.6 of RFC 3339), compared as text by SQL.
 Instants here count nanoseconds from the start of year 0.
 */
module Timestamp {
  import opened Types
  import Text

  // ---------------------------------------------------------------- the calendar

  predicate Leap(y: nat) {
    y % 4 == 0 && (y % 100 != 0 || y % 400 == 0)
  }

  function YearLength(y: nat): nat { if Leap(y) then 366 else 365 }

  function MonthLength(y: nat, m: nat): nat {
    if m == 2 then (if Leap(y) then 29 else 28) else if m in {4, 6, 9, 11} then 30 else 31
  }

  function DaysBeforeYear(y: nat): nat {
    if y == 0 then 0 else DaysBeforeYear(y - 1) + YearLength(y - 1)
  }

  /** Days of year `y` before month `m`, counting months from 1. */
  function DaysBeforeMonth(y: nat, m: nat): nat {
    if m <= 1 then 0 else DaysBeforeMonth(y, m - 1) + MonthLength(y, m - 1)
  }

  datatype Civil = Civil(year: nat, month: nat, day: nat, hour: nat, minute: nat, second: nat, nano: nat)

  const NANOS: nat := 1_000_000_000
  const DAY_NANOS: nat := 86_400 * NANOS

  predicate Valid(c: Civil) {
    && c.year <= 9999 && 1 <= c.month <= 12 && 1 <= c.day <= MonthLength(c.year, c.month)
    && c.hour < 24 && c.minute < 60 && c.second < 60 && c.nano < NANOS
  }

  function DayNumber(c: Civil): int {
    DaysBeforeYear(c.year) + DaysBeforeMonth(c.year, c.month) + c.day - 1
  }

  function TimeOfDay(c: Civil): nat {
    ((c.hour * 60 + c.minute) * 60 + c.second) * NANOS + c.nano
  }

  function InstantOf(c: Civil): int {
    DayNumber(c) * DAY_NANOS + TimeOfDay(c)
  }

  lemma YearHasTwelveMonths(y: nat)
    ensures DaysBeforeMonth(y, 13) == YearLength(y)
  {
    assert DaysBeforeMonth(y, 2) == MonthLength(y, 1);
    assert DaysBeforeMonth(y, 3) == MonthLength(y, 1) + MonthLength(y, 2);
    assert DaysBeforeMonth(y, 5) == DaysBeforeMonth(y, 3) + MonthLength(y, 3) + MonthLength(y, 4);
    assert DaysBeforeMonth(y, 7) == DaysBeforeMonth(y, 5) + MonthLength(y, 5) + MonthLength(y, 6);
    assert DaysBeforeMonth(y, 9) == DaysBeforeMonth(y, 7) + MonthLength(y, 7) + MonthLength(y, 8);
    assert DaysBeforeMonth(y, 11) == DaysBeforeMonth(y, 9) + MonthLength(y, 9) + MonthLength(y, 10);
    assert DaysBeforeMonth(y, 13) == DaysBeforeMonth(y, 11) + MonthLength(y, 11) + MonthLength(y, 12);
  }

  lemma {:induction false} MonthsRise(y: nat, a: nat, b: nat)
    requires 1 <= a < b
    ensures DaysBeforeMonth(y, a) + MonthLength(y, a) <= DaysBeforeMonth(y, b)
    decreases b
  {
    if a + 1 < b {
      MonthsRise(y, a, b - 1);
    }
  }

  lemma {:induction false} YearsRise(a: nat, b: nat)
    requires a < b
    ensures DaysBeforeYear(a) + YearLength(a) <= DaysBeforeYear(b)
    decreases b
  {
    if a + 1 < b {
      YearsRise(a, b - 1);
    }
  }

  lemma DayInYear(c: Civil)
    requires Valid(c)
    ensures DaysBeforeYear(c.year) <= DayNumber(c) < DaysBeforeYear(c.year) + YearLength(c.year)
  {
    YearHasTwelveMonths(c.year);
    MonthsRise(c.year, c.month, 13);
  }

  // ---------------------------------------------------------------- from an instant to its fields

  function YearAt(n: nat, y: nat): (r: nat)
    requires DaysBeforeYear(y) <= n
    ensures DaysBeforeYear(r) <= n < DaysBeforeYear(r + 1)
    decreases n - DaysBeforeYear(y)
  {
    if n < DaysBeforeYear(y + 1) then y else YearAt(n, y + 1)
  }

  function MonthAt(y: nat, n: nat, m: nat): (r: nat)
    requires 1 <= m <= 12 && DaysBeforeMonth(y, m) <= n < YearLength(y)
    ensures 1 <= r <= 12 && DaysBeforeMonth(y, r) <= n < DaysBeforeMonth(y, r) + MonthLength(y, r)
    decreases 12 - m
  {
    YearHasTwelveMonths(y);
    if n < DaysBeforeMonth(y, m + 1) then m else MonthAt(y, n, m + 1)
  }

  /** Leap days fall every fourth year, except in centuries that four does not divide. */
  lemma {:induction false} DaysBeforeYearInClosedForm(y: nat)
    ensures DaysBeforeYear(y) == 365 * y + (y + 3) / 4 - (y + 99) / 100 + (y + 399) / 400
    decreases y
  {
    if y > 0 {
      DaysBeforeYearInClosedForm(y - 1);
      Steps4(y - 1);
      Steps100(y - 1);
      Steps400(y - 1);
      CenturiesAreFourths(y - 1);
    }
  }

  lemma Steps4(y: nat)
    ensures (y + 4) / 4 - (y + 3) / 4 == (if y % 4 == 0 then 1 else 0)
  {
  }

  lemma Steps100(y: nat)
    ensures (y + 100) / 100 - (y + 99) / 100 == (if y % 100 == 0 then 1 else 0)
  {
  }

  lemma Steps400(y: nat)
    ensures (y + 400) / 400 - (y + 399) / 400 == (if y % 400 == 0 then 1 else 0)
  {
  }

  lemma CenturiesAreFourths(y: nat)
    ensures y % 400 == 0 ==> y % 100 == 0
    ensures y % 100 == 0 ==> y % 4 == 0
  {
    if y % 400 == 0 {
      assert y == 100 * (4 * (y / 400));
    }
    if y % 100 == 0 {
      assert y == 4 * (25 * (y / 100));
    }
  }

  /** Days in ten thousand years, and the first instant past the year 9999. */
  const TEN_MILLENNIA: nat := 3_652_425

  function Limit(): int { TEN_MILLENNIA * DAY_NANOS }

  function CivilOf(t: nat): Civil {
    var n, rest := t / DAY_NANOS, t % DAY_NANOS;
    var y := YearAt(n, 0);
    var m := MonthAt(y, n - DaysBeforeYear(y), 1);
    Civil(y, m, n - DaysBeforeYear(y) - DaysBeforeMonth(y, m) + 1,
          rest / (3600 * NANOS), rest / (60 * NANOS) % 60, rest / NANOS % 60, rest % NANOS)
  }

  lemma TimeSplits(rest: nat)
    requires rest < DAY_NANOS
    ensures rest / (3600 * NANOS) < 24
    ensures ((rest / (3600 * NANOS) * 60 + rest / (60 * NANOS) % 60) * 60 + rest / NANOS % 60) * NANOS + rest % NANOS == rest
  {
    var s := rest / NANOS;
    assert rest / (60 * NANOS) == s / 60 && rest / (3600 * NANOS) == s / 3600;
    assert s / 3600 == s / 60 / 60;
  }

  lemma YearIsWithin(n: nat, r: nat)
    requires DaysBeforeYear(r) <= n < TEN_MILLENNIA
    ensures r <= 9999
  {
    DaysBeforeYearInClosedForm(r);
  }

  lemma CivilIsValid(t: nat)
    requires t < Limit()
    ensures Valid(CivilOf(t)) && InstantOf(CivilOf(t)) == t
  {
    var n, rest := t / DAY_NANOS, t % DAY_NANOS;
    YearIsWithin(n, YearAt(n, 0));
    TimeSplits(rest);
  }

  // ---------------------------------------------------------------- digits

  function Power10(w: nat): nat {
    if w == 0 then 1 else 10 * Power10(w - 1)
  }

  function Digit(n: nat): char
    requires n < 10
  {
    '0' + n as char
  }

  /** A number in exactly `w` decimal digits. */
  function Pad(n: nat, w: nat): (s: string)
    requires n < Power10(w)
    ensures |s| == w && forall i :: 0 <= i < w ==> '0' <= s[i] <= '9'
  {
    if w == 0 then "" else Pad(n / 10, w - 1) + [Digit(n % 10)]
  }

  function Number(s: string): nat
    requires forall i :: 0 <= i < |s| ==> '0' <= s[i] <= '9'
  {
    if s == [] then 0 else Number(s[..|s| - 1]) * 10 + (s[|s| - 1] - '0') as nat
  }

  lemma {:induction false} NumberOfPad(n: nat, w: nat)
    requires n < Power10(w)
    ensures Number(Pad(n, w)) == n
    decreases w
  {
    if w > 0 {
      NumberOfPad(n / 10, w - 1);
      assert Pad(n, w)[..w - 1] == Pad(n / 10, w - 1);
    }
  }

  lemma {:induction false} PadOrder(a: nat, b: nat, w: nat)
    requires a < b < Power10(w)
    ensures Text.Less(Pad(a, w), Pad(b, w))
    decreases w
  {
    if w > 0 {
      if a / 10 == b / 10 {
        Text.Prefixed(Pad(a / 10, w - 1), [Digit(a % 10)], [Digit(b % 10)]);
      } else {
        PadOrder(a / 10, b / 10, w - 1);
        Text.Trichotomy(Pad(a / 10, w - 1), Pad(b / 10, w - 1));
        Text.Decided(Pad(a / 10, w - 1), Pad(b / 10, w - 1), [Digit(a % 10)], [Digit(b % 10)]);
      }
    }
  }

  // ---------------------------------------------------------------- fixed-width fields

  /** A field of the layout: its width, and the character after it. */
  datatype Field = Field(width: nat, after: char)

  ghost predicate Fit(values: seq<nat>, layout: seq<Field>) {
    |values| == |layout| && forall i :: 0 <= i < |values| ==> values[i] < Power10(layout[i].width)
  }

  function Render(values: seq<nat>, layout: seq<Field>): (s: string)
    requires |values| == |layout| && forall i :: 0 <= i < |values| ==> values[i] < Power10(layout[i].width)
    decreases |values|
  {
    if values == [] then "" else Pad(values[0], layout[0].width) + [layout[0].after] + Render(values[1..], layout[1..])
  }

  /** The fields compared one after the other. */
  predicate Before(a: seq<nat>, b: seq<nat>)
    requires |a| == |b|
    decreases |a|
  {
    a != [] && (a[0] < b[0] || (a[0] == b[0] && Before(a[1..], b[1..])))
  }

  /** The first field decides if it differs, and otherwise the rest does. */
  lemma FieldDecides(x: nat, y: nat, w: nat, after: char, s: string, t: string)
    requires x < Power10(w) && y < Power10(w)
    ensures x < y ==> Text.Less(Pad(x, w) + [after] + s, Pad(y, w) + [after] + t)
    ensures x == y && Text.Less(s, t) ==> Text.Less(Pad(x, w) + [after] + s, Pad(y, w) + [after] + t)
  {
    assert Pad(x, w) + [after] + s == Pad(x, w) + ([after] + s);
    assert Pad(y, w) + [after] + t == Pad(y, w) + ([after] + t);
    if x < y {
      PadOrder(x, y, w);
      Text.Trichotomy(Pad(x, w), Pad(y, w));
      Text.Decided(Pad(x, w), Pad(y, w), [after] + s, [after] + t);
    } else if x == y {
      Text.Prefixed([after], s, t);
      Text.Prefixed(Pad(x, w), [after] + s, [after] + t);
    }
  }

  lemma {:induction false} RenderOrder(a: seq<nat>, b: seq<nat>, layout: seq<Field>)
    requires Fit(a, layout) && Fit(b, layout) && Before(a, b)
    ensures Text.Less(Render(a, layout), Render(b, layout))
    decreases |a|
  {
    if a[0] == b[0] {
      RenderOrder(a[1..], b[1..], layout[1..]);
    }
    FieldDecides(a[0], b[0], layout[0].width, layout[0].after, Render(a[1..], layout[1..]), Render(b[1..], layout[1..]));
  }

  predicate Digits(s: string) {
    forall i :: 0 <= i < |s| ==> '0' <= s[i] <= '9'
  }

  /** Reads the fields back, or fails on a wrong width, character or separator. */
  function Scan(s: string, layout: seq<Field>): Option<seq<nat>>
    decreases |layout|
  {
    if layout == [] then (if s == "" then Some([]) else None)
    else
      var w := layout[0].width;
      if |s| < w + 1 || !Digits(s[..w]) || s[w] != layout[0].after then None
      else
        var rest := Scan(s[w + 1..], layout[1..]);
        if rest.None? then None else Some([Number(s[..w])] + rest.value)
  }

  lemma {:induction false} ScanUndoesRender(values: seq<nat>, layout: seq<Field>)
    requires Fit(values, layout)
    ensures Scan(Render(values, layout), layout) == Some(values)
    decreases |values|
  {
    if values != [] {
      var w := layout[0].width;
      var rest := Render(values[1..], layout[1..]);
      var s := Render(values, layout);
      assert s == Pad(values[0], w) + [layout[0].after] + rest;
      assert s[..w] == Pad(values[0], w) && s[w] == layout[0].after && s[w + 1..] == rest;
      NumberOfPad(values[0], w);
      ScanUndoesRender(values[1..], layout[1..]);
      assert [values[0]] + values[1..] == values;
    }
  }

  // ---------------------------------------------------------------- the store's format

  const LAYOUT: seq<Field> := [Field(4, '-'), Field(2, '-'), Field(2, 'T'), Field(2, ':'), Field(2, ':'), Field(2, '.'), Field(9, 'Z')]

  function Fields(c: Civil): seq<nat> {
    [c.year, c.month, c.day, c.hour, c.minute, c.second, c.nano]
  }

  lemma Powers()
    ensures Power10(2) == 100 && Power10(4) == 10_000 && Power10(9) == 1_000_000_000
  {
    assert Power10(1) == 10;
    assert Power10(3) == 1_000;
    assert Power10(5) == 100_000;
    assert Power10(7) == 10_000_000;
  }

  lemma FieldsFit(c: Civil)
    requires Valid(c)
    ensures Fit(Fields(c), LAYOUT)
  {
    Powers();
  }

  function FormatTime(t: nat): string
    requires t < Limit()
  {
    CivilIsValid(t);
    FieldsFit(CivilOf(t));
    Render(Fields(CivilOf(t)), LAYOUT)
  }

  function ParseTime(s: string): Option<int> {
    var scanned := Scan(s, LAYOUT);
    if scanned.None? || |scanned.value| != 7 then None
    else
      var v := scanned.value;
      var c := Civil(v[0], v[1], v[2], v[3], v[4], v[5], v[6]);
      if Valid(c) then Some(InstantOf(c)) else None
  }

  lemma DateOrder(a: Civil, b: Civil)
    requires Valid(a) && Valid(b)
    requires a.year < b.year || (a.year == b.year && (a.month < b.month || (a.month == b.month && a.day < b.day)))
    ensures DayNumber(a) < DayNumber(b)
  {
    DayInYear(a);
    DayInYear(b);
    if a.year < b.year {
      YearsRise(a.year, b.year);
    } else if a.month < b.month {
      MonthsRise(a.year, a.month, b.month);
    }
  }

  lemma TimeInDay(c: Civil)
    requires Valid(c)
    ensures TimeOfDay(c) < DAY_NANOS
  {
  }

  function Date(c: Civil): seq<nat> { [c.year, c.month, c.day] }

  function Clock(c: Civil): seq<nat> { [c.hour, c.minute, c.second, c.nano] }

  lemma {:induction false} BeforeTail(p: seq<nat>, a: seq<nat>, b: seq<nat>)
    requires |a| == |b|
    ensures Before(p + a, p + b) <==> Before(a, b)
    decreases |p|
  {
    if p == [] {
      assert p + a == a && p + b == b;
    } else {
      assert (p + a)[1..] == p[1..] + a && (p + b)[1..] == p[1..] + b;
      BeforeTail(p[1..], a, b);
    }
  }

  lemma {:induction false} BeforeHead(p: seq<nat>, q: seq<nat>, a: seq<nat>, b: seq<nat>)
    requires |p| == |q| && |a| == |b| && p != q && Before(p + a, q + b)
    ensures Before(p, q)
    decreases |p|
  {
    assert (p + a)[1..] == p[1..] + a && (q + b)[1..] == q[1..] + b;
    if p[0] == q[0] {
      assert p == [p[0]] + p[1..] && q == [q[0]] + q[1..];
      BeforeHead(p[1..], q[1..], a, b);
    }
  }

  lemma ClockOrder(a: Civil, b: Civil)
    requires Valid(a) && Valid(b) && Before(Clock(a), Clock(b))
    ensures TimeOfDay(a) < TimeOfDay(b)
  {
    assert Clock(a) == [a.hour] + ([a.minute] + ([a.second] + ([a.nano] + []))) && Clock(b) == [b.hour] + ([b.minute] + ([b.second] + ([b.nano] + [])));
    BeforeOpens(a.hour, b.hour, [a.minute] + ([a.second] + ([a.nano] + [])), [b.minute] + ([b.second] + ([b.nano] + [])));
    BeforeOpens(a.minute, b.minute, [a.second] + ([a.nano] + []), [b.second] + ([b.nano] + []));
    BeforeOpens(a.second, b.second, [a.nano] + [], [b.nano] + []);
    BeforeOpens(a.nano, b.nano, [], []);
  }

  lemma BeforeOpens(x: nat, y: nat, a: seq<nat>, b: seq<nat>)
    requires |a| == |b|
    ensures Before([x] + a, [y] + b) <==> x < y || (x == y && Before(a, b))
  {
    assert ([x] + a)[1..] == a && ([y] + b)[1..] == b;
  }

  lemma DatesOrdered(a: Civil, b: Civil)
    requires Valid(a) && Valid(b) && Before(Date(a), Date(b))
    ensures DayNumber(a) < DayNumber(b)
  {
    assert Date(a) == [a.year] + ([a.month] + ([a.day] + [])) && Date(b) == [b.year] + ([b.month] + ([b.day] + []));
    BeforeOpens(a.year, b.year, [a.month] + ([a.day] + []), [b.month] + ([b.day] + []));
    BeforeOpens(a.month, b.month, [a.day] + [], [b.day] + []);
    BeforeOpens(a.day, b.day, [], []);
    DateOrder(a, b);
  }

  lemma FieldOrder(a: Civil, b: Civil)
    requires Valid(a) && Valid(b) && Before(Fields(a), Fields(b))
    ensures InstantOf(a) < InstantOf(b)
  {
    TimeInDay(a);
    TimeInDay(b);
    assert Fields(a) == Date(a) + Clock(a) && Fields(b) == Date(b) + Clock(b);
    if Date(a) == Date(b) {
      BeforeTail(Date(a), Clock(a), Clock(b));
      ClockOrder(a, b);
      assert Date(a)[0] == Date(b)[0] && Date(a)[1] == Date(b)[1] && Date(a)[2] == Date(b)[2];
    } else {
      BeforeHead(Date(a), Date(b), Clock(a), Clock(b));
      DatesOrdered(a, b);
      DaysApart(DayNumber(a), DayNumber(b), TimeOfDay(a), TimeOfDay(b));
    }
  }

  lemma DaysApart(a: int, b: int, x: nat, y: nat)
    requires a < b && x < DAY_NANOS
    ensures a * DAY_NANOS + x < b * DAY_NANOS + y
  {
  }

  lemma {:induction false} BeforeIsTotal(a: seq<nat>, b: seq<nat>)
    requires |a| == |b|
    ensures a == b || Before(a, b) || Before(b, a)
    decreases |a|
  {
    if a != [] && a[0] == b[0] {
      BeforeIsTotal(a[1..], b[1..]);
      assert a == [a[0]] + a[1..] && b == [b[0]] + b[1..];
    }
  }

  /** Timestamps compare as text exactly as their instants compare in time, for every instant of the years 0 to 9999. */
  lemma TextOrderIsTimeOrder(t: nat, u: nat)
    requires t < Limit() && u < Limit()
    ensures Text.Less(FormatTime(t), FormatTime(u)) <==> t < u
    ensures FormatTime(t) == FormatTime(u) <==> t == u
  {
    CivilIsValid(t);
    CivilIsValid(u);
    var a, b := CivilOf(t), CivilOf(u);
    FieldsFit(a);
    FieldsFit(b);
    BeforeIsTotal(Fields(a), Fields(b));
    Text.Trichotomy(FormatTime(t), FormatTime(u));
    if Before(Fields(a), Fields(b)) {
      FieldOrder(a, b);
      RenderOrder(Fields(a), Fields(b), LAYOUT);
    } else if Before(Fields(b), Fields(a)) {
      FieldOrder(b, a);
      RenderOrder(Fields(b), Fields(a), LAYOUT);
    } else {
      SameFields(a, b);
    }
  }

  lemma SameFields(a: Civil, b: Civil)
    requires Fields(a) == Fields(b)
    ensures a == b
  {
    assert forall i :: 0 <= i < 7 ==> Fields(a)[i] == Fields(b)[i];
    assert Fields(a)[0] == a.year && Fields(a)[1] == a.month && Fields(a)[2] == a.day && Fields(a)[3] == a.hour;
    assert Fields(a)[4] == a.minute && Fields(a)[5] == a.second && Fields(a)[6] == a.nano;
  }

  /** Reading a stored timestamp gives back the instant that was written. */
  lemma ParseUndoesFormat(t: nat)
    requires t < Limit()
    ensures ParseTime(FormatTime(t)) == Some(t)
  {
    CivilIsValid(t);
    FieldsFit(CivilOf(t));
    ScanUndoesRender(Fields(CivilOf(t)), LAYOUT);
  }
}

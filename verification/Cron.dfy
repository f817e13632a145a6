/** Cron lines for a weekly shutdown and its warning (backend/internal/lifecycle/cron.go). */
module Cron {
  import opened Decimal
  import opened Text
  import opened Wrappers

  const WARN_LEAD: nat := 15
  const DAY: nat := 24 * 60

  // ---- clock times -------------------------------------------------------------------

  datatype Clock = Clock(hh: nat, mm: nat)

  predicate ValidClock(c: Clock) {
    c.hh <= 23 && c.mm <= 59
  }

  /** parseHHMM. */
  function ParseHHMM(s: string): (r: Option<Clock>)
    ensures r.Some? ==> ValidClock(r.value)
  {
    var parts := Split(s, ':');
    if |parts| != 2 then None
    else
      var hh, mm := Atoi(parts[0]), Atoi(parts[1]);
      if hh.None? || !(0 <= hh.value <= 23) || mm.None? || !(0 <= mm.value <= 59) then None
      else Some(Clock(hh.value, mm.value))
  }

  function Unsigned(s: string): string {
    if s != [] && (s[0] == '-' || s[0] == '+') then s[1..] else s
  }

  /** A number of at most `most` as strconv.Atoi takes it: padded or not, signed or not; with a
      minus sign only zero. */
  predicate Numeral(s: string, most: nat) {
    && Unsigned(s) != [] && AllDigits(Unsigned(s)) && Value(Unsigned(s)) <= most
    && (s[0] == '-' ==> Value(Unsigned(s)) == 0)
  }

  ghost predicate IsTime(s: string, hh: string, mm: string) {
    s == hh + [':'] + mm && Numeral(hh, 23) && Numeral(mm, 59)
  }

  /** parseHHMM accepts exactly two numerals in range around one colon, "9:5", "+09:05" and
      "-0:5" included, and reads their values. */
  lemma ParseAcceptsExactly(s: string)
    ensures ParseHHMM(s).Some? <==> exists hh, mm :: IsTime(s, hh, mm)
    ensures forall hh, mm | IsTime(s, hh, mm) ::
      ParseHHMM(s) == Some(Clock(Value(Unsigned(hh)), Value(Unsigned(mm))))
  {
    hide Split, Atoi, Join;
    if ParseHHMM(s).Some? {
      var parts := Split(s, ':');
      JoinOfSplit(s, ':');
      JoinOfTwo(parts[0], parts[1], ':');
      assert parts == [parts[0], parts[1]];
      AtoiTakesNumerals(parts[0], 23);
      AtoiTakesNumerals(parts[1], 59);
      assert IsTime(s, parts[0], parts[1]);
    }
    forall hh, mm | IsTime(s, hh, mm)
      ensures ParseHHMM(s) == Some(Clock(Value(Unsigned(hh)), Value(Unsigned(mm))))
    {
      NumeralHasNoColon(hh, 23);
      NumeralHasNoColon(mm, 59);
      JoinOfTwo(hh, mm, ':');
      SplitOfJoin([hh, mm], ':');
      AtoiTakesNumerals(hh, 23);
      AtoiTakesNumerals(mm, 59);
    }
  }

  lemma JoinOfTwo(a: string, b: string, sep: char)
    ensures Join([a, b], sep) == a + [sep] + b
  {
    assert [a, b][1..] == [b];
  }

  lemma AtoiTakesNumerals(s: string, most: nat)
    requires most <= 59
    ensures Numeral(s, most) <==> Atoi(s).Some? && 0 <= Atoi(s).value <= most
    ensures Numeral(s, most) ==> Unsigned(s) != [] && AllDigits(Unsigned(s)) && Atoi(s) == Some(Value(Unsigned(s)))
  {
  }

  lemma NumeralHasNoColon(s: string, most: nat)
    requires Numeral(s, most)
    ensures !Has(s, ':')
  {
    assert forall i | 0 <= i < |s| :: s[i] == if |Unsigned(s)| == |s| then Unsigned(s)[i] else if i == 0 then s[0] else Unsigned(s)[i - 1];
  }

  // ---- days ----------------------------------------------------------------------------

  /** Go's %: the remainder has the sign of the dividend. */
  function GoMod(a: int, b: nat): int
    requires b > 0
  {
    if a >= 0 then a % b else -((-a) % b)
  }

  /** ((d % 7) + 7) % 7, in Go's arithmetic. */
  function WeekDay(d: int): (r: nat)
    ensures r == d % 7
  {
    GoMod(GoMod(d, 7) + 7, 7)
  }

  function WeekDays(days: seq<int>): (r: seq<nat>)
    ensures |r| == |days| && forall i | 0 <= i < |days| :: r[i] == days[i] % 7
  {
    seq(|days|, i requires 0 <= i < |days| => WeekDay(days[i]))
  }

  function Numerals(ns: seq<nat>): (r: seq<string>)
    ensures |r| == |ns| && forall i | 0 <= i < |ns| :: r[i] == Itoa(ns[i])
  {
    seq(|ns|, i requires 0 <= i < |ns| => Itoa(ns[i]))
  }

  /** The five fields of the line that fires at c on those days of the week. */
  function Fields(c: Clock, days: seq<int>): seq<string> {
    [Itoa(c.mm), Itoa(c.hh), "*", "*", Join(Numerals(WeekDays(days)), ',')]
  }

  method CronExpr(c: Clock, days: seq<int>) returns (line: string)
    ensures line == Join(Fields(c, days), ' ')
  {
    var ds := new string[|days|];
    for i := 0 to |days|
      invariant forall j | 0 <= j < i :: ds[j] == Itoa(days[j] % 7)
    {
      ds[i] := Itoa(WeekDay(days[i]));
    }
    assert ds[..] == Numerals(WeekDays(days));
    line := Join([Itoa(c.mm), Itoa(c.hh), "*", "*", Join(ds[..], ',')], ' ');
  }

  /** The warning's clock time and days: every firing moves back by the lead, in the week. */
  ghost predicate MovedBack(c: Clock, days: seq<int>, w: Clock, wdays: seq<int>) {
    && ValidClock(w) && |wdays| == |days|
    && forall i | 0 <= i < |days| :: WeekMinuteOf(wdays[i], w) == (WeekMinuteOf(days[i], c) - WARN_LEAD) % (7 * DAY)
  }

  function WeekMinuteOf(day: int, c: Clock): int {
    day % 7 * DAY + c.hh * 60 + c.mm
  }

  function WarnClock(c: Clock): Clock
    requires ValidClock(c)
  {
    var total := (c.hh * 60 + c.mm + DAY - WARN_LEAD) % DAY;
    Clock(total / 60, total % 60)
  }

  function WarnDays(c: Clock, days: seq<int>): (r: seq<int>)
    ensures |r| == |days|
  {
    if c.hh * 60 + c.mm >= WARN_LEAD then days
    else seq(|days|, i requires 0 <= i < |days| => (days[i] - 1) % 7)
  }

  method WarnTime(c: Clock, days: seq<int>) returns (w: Clock, wdays: seq<int>)
    requires ValidClock(c)
    ensures w == WarnClock(c) && wdays == WarnDays(c, days) && MovedBack(c, days, w, wdays)
  {
    hide WeekMinuteOf, WarnClock, MovedBack;
    WarnClockIs(c);
    WarnMovesBack(c, days);
    var total := c.hh * 60 + c.mm - WARN_LEAD;
    if total >= 0 {
      return Clock(total / 60, total % 60), days;
    }
    total := total + DAY;
    var shifted := new int[|days|];
    for i := 0 to |days|
      invariant forall j | 0 <= j < i :: shifted[j] == (days[j] - 1) % 7
    {
      shifted[i] := WeekDay(days[i] - 1);
    }
    w, wdays := Clock(total / 60, total % 60), shifted[..];
    assert wdays == WarnDays(c, days);
  }

  lemma WarnMovesBack(c: Clock, days: seq<int>)
    requires ValidClock(c)
    ensures MovedBack(c, days, WarnClock(c), WarnDays(c, days))
  {
    hide WeekMinuteOf, WarnClock;
    WarnClockIs(c);
    var w, wdays := WarnClock(c), WarnDays(c, days);
    forall i | 0 <= i < |days|
      ensures WeekMinuteOf(wdays[i], w) == (WeekMinuteOf(days[i], c) - WARN_LEAD) % (7 * DAY)
    {
      if c.hh * 60 + c.mm >= WARN_LEAD {
        SameDay(days[i], c);
      } else {
        DayBefore(days[i], c);
      }
    }
  }

  lemma WarnClockIs(c: Clock)
    requires ValidClock(c)
    ensures var total := c.hh * 60 + c.mm - WARN_LEAD;
      WarnClock(c) == if total >= 0 then Clock(total / 60, total % 60) else Clock((total + DAY) / 60, (total + DAY) % 60)
    ensures ValidClock(WarnClock(c))
  {
    WrapsOnce(c.hh * 60 + c.mm + DAY - WARN_LEAD);
  }

  lemma WrapsOnce(x: int)
    requires 0 <= x < 2 * DAY
    ensures x % DAY == if x < DAY then x else x - DAY
  {
  }

  lemma SameDay(d: int, c: Clock)
    requires ValidClock(c) && c.hh * 60 + c.mm >= WARN_LEAD
    ensures var total := c.hh * 60 + c.mm - WARN_LEAD;
      WeekMinuteOf(d, Clock(total / 60, total % 60)) == (WeekMinuteOf(d, c) - WARN_LEAD) % (7 * DAY)
  {
  }

  lemma DayBefore(d: int, c: Clock)
    requires ValidClock(c) && c.hh * 60 + c.mm < WARN_LEAD
    ensures var total := c.hh * 60 + c.mm - WARN_LEAD + DAY;
      WeekMinuteOf((d - 1) % 7, Clock(total / 60, total % 60)) == (WeekMinuteOf(d, c) - WARN_LEAD) % (7 * DAY)
  {
    if d % 7 == 0 {
      assert (d - 1) % 7 == 6;
    } else {
      assert (d - 1) % 7 == d % 7 - 1;
    }
  }

  // ---- when a line fires -------------------------------------------------------------------

  datatype Line = Line(minute: int, hour: int, days: seq<int>)

  /** The numbers of a list, or None if one is not a numeral. */
  function Numbers(parts: seq<string>): (r: Option<seq<int>>)
    ensures r.Some? ==> |r.value| == |parts|
  {
    if parts == [] then Some([])
    else
      var init, last := Numbers(parts[..|parts| - 1]), Atoi(parts[|parts| - 1]);
      if init.None? || last.None? then None else Some(init.value + [last.value])
  }

  /** A standard line whose day-of-month and month are "*", and whose days are a list. */
  function Parse(line: string): Option<Line> {
    var f := Split(line, ' ');
    if |f| != 5 || f[2] != "*" || f[3] != "*" then None
    else
      var minute, hour, days := Atoi(f[0]), Atoi(f[1]), Numbers(Split(f[4], ','));
      if minute.None? || hour.None? || days.None? then None else Some(Line(minute.value, hour.value, days.value))
  }

  /** The line fires at the wall-clock minute t, counted from some Sunday's midnight. */
  ghost predicate Fires(line: string, t: int) {
    Parse(line).Some? && FiresAt(Parse(line).value, t)
  }

  ghost predicate FiresAt(l: Line, t: int) {
    && l.minute == t % 60 && l.hour == t / 60 % 24
    && exists i :: 0 <= i < |l.days| && l.days[i] == t / DAY % 7
  }

  lemma {:induction false} NumeralsHaveNo(ns: seq<nat>, c: char)
    requires !IsDigit(c)
    ensures forall i | 0 <= i < |ns| :: !Has(Numerals(ns)[i], c)
  {
    forall i | 0 <= i < |ns|
      ensures !Has(Numerals(ns)[i], c)
    {
      assert AllDigits(Itoa(ns[i]));
    }
  }

  lemma {:induction false} NumbersOfNumerals(ns: seq<nat>)
    requires forall i | 0 <= i < |ns| :: ns[i] < 7
    ensures Numbers(Numerals(ns)) == Some(ns)
  {
    if ns != [] {
      var init, n := ns[..|ns| - 1], ns[|ns| - 1];
      NumbersOfNumerals(init);
      assert Numerals(ns)[..|ns| - 1] == Numerals(init);
      AtoiReadsItoa(n);
      assert ns == init + [n];
    }
  }

  /** Reading a line back gives the clock time and the days, in order, it was made from. */
  lemma ParseOfFields(c: Clock, days: seq<int>)
    requires ValidClock(c) && days != []
    ensures Parse(Join(Fields(c, days), ' ')) == Some(Line(c.mm, c.hh, WeekDays(days)))
  {
    var ns := WeekDays(days);
    NumeralsHaveNo(ns, ' ');
    NumeralsHaveNo(ns, ',');
    JoinedHasNo(Numerals(ns), ',', ' ');
    var f := Fields(c, days);
    assert AllDigits(f[0]) && AllDigits(f[1]);
    SplitOfJoin(f, ' ');
    SplitOfJoin(Numerals(ns), ',');
    NumbersOfNumerals(ns);
    AtoiReadsItoa(c.mm);
    AtoiReadsItoa(c.hh);
  }

  /** A line fires exactly at its clock time on its days, every week. */
  lemma FiresWhen(c: Clock, days: seq<int>, t: int)
    requires ValidClock(c) && days != []
    ensures Fires(Join(Fields(c, days), ' '), t) <==>
      exists i :: 0 <= i < |days| && WeekMinuteOf(days[i], c) == t % (7 * DAY)
  {
    hide Fields, Parse, WeekMinuteOf;
    ParseOfFields(c, days);
    var l := Line(c.mm, c.hh, WeekDays(days));
    forall i | 0 <= i < |days|
      ensures l.minute == t % 60 && l.hour == t / 60 % 24 && l.days[i] == t / DAY % 7 <==>
        WeekMinuteOf(days[i], c) == t % (7 * DAY)
    {
      OneMinute(days[i], c, t);
    }
    if FiresAt(l, t) {
      var i :| 0 <= i < |l.days| && l.days[i] == t / DAY % 7;
      assert WeekMinuteOf(days[i], c) == t % (7 * DAY);
    }
    if i :| 0 <= i < |days| && WeekMinuteOf(days[i], c) == t % (7 * DAY) {
      assert l.days[i] == t / DAY % 7;
    }
  }

  lemma DayMinute(t: int)
    ensures t / DAY == t / 60 / 24 && t % DAY == t / 60 % 24 * 60 + t % 60
  {
    var m, h, d := t % 60, t / 60 % 24, t / 60 / 24;
    assert t == 1440 * d + (60 * h + m);
  }

  lemma WeekMinute(t: int)
    ensures t % (7 * DAY) == t / DAY % 7 * DAY + t / 60 % 24 * 60 + t % 60
  {
    DayMinute(t);
    var m, d, w := t % 1440, t / 1440 % 7, t / 1440 / 7;
    assert t == 10080 * w + (1440 * d + m);
  }

  lemma OneMinute(day: int, c: Clock, t: int)
    requires ValidClock(c)
    ensures c.mm == t % 60 && c.hh == t / 60 % 24 && day % 7 == t / DAY % 7 <==> WeekMinuteOf(day, c) == t % (7 * DAY)
  {
    WeekMinute(t);
    SameDigits(day % 7, c.hh, c.mm, t / DAY % 7, t / 60 % 24, t % 60);
  }

  lemma SameDigits(d: nat, h: nat, m: nat, d': nat, h': nat, m': nat)
    requires h < 24 && m < 60 && h' < 24 && m' < 60
    ensures d * DAY + h * 60 + m == d' * DAY + h' * 60 + m' ==> d == d' && h == h' && m == m'
  {
  }

  /** For any shutdown time and any list of days, the warning's line fires exactly fifteen
      minutes before every firing of the stop's line, across midnight and the week's end. */
  method WarnAndStop(c: Clock, days: seq<int>) returns (warn: string, stop: string)
    requires ValidClock(c) && days != []
    ensures forall t: int :: Fires(warn, t) <==> Fires(stop, t + 15)
  {
    stop := CronExpr(c, days);
    var w, wdays := WarnTime(c, days);
    warn := CronExpr(w, wdays);
    forall t: int
      ensures Fires(warn, t) <==> Fires(stop, t + WARN_LEAD)
    {
      SameInstants(c, days, w, wdays, t);
    }
  }

  lemma SameInstants(c: Clock, days: seq<int>, w: Clock, wdays: seq<int>, t: int)
    requires ValidClock(c) && days != [] && MovedBack(c, days, w, wdays)
    ensures Fires(Join(Fields(w, wdays), ' '), t) <==> Fires(Join(Fields(c, days), ' '), t + WARN_LEAD)
  {
    hide Fires, Fields, WeekMinuteOf;
    FiresWhen(w, wdays, t);
    FiresWhen(c, days, t + WARN_LEAD);
    forall i | 0 <= i < |days|
      ensures WeekMinuteOf(wdays[i], w) == t % (7 * DAY) <==> WeekMinuteOf(days[i], c) == (t + WARN_LEAD) % (7 * DAY)
    {
      InTheWeek(days[i], c);
      Shift(WeekMinuteOf(days[i], c), t);
    }
  }

  lemma InTheWeek(day: int, c: Clock)
    requires ValidClock(c)
    ensures 0 <= WeekMinuteOf(day, c) < 7 * DAY
  {
  }

  lemma Shift(x: int, t: int)
    requires 0 <= x < 7 * DAY
    ensures (x - WARN_LEAD) % (7 * DAY) == t % (7 * DAY) <==> x == (t + WARN_LEAD) % (7 * DAY)
  {
  }
}

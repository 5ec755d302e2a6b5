/** Calendar values and Python's `datetime.strptime` for the directives the scrapers use
    (%Y %m %d %H %M %S %f and literal characters), together with the `strftime` and
    `isoformat` renderings the chat service and the vector store print. */
module Dates {
  import opened Common

  datatype DateTime = DateTime(year: int, month: int, day: int,
                               hour: int, minute: int, second: int, micro: int)

  predicate IsLeap(y: int)
  {
    y % 4 == 0 && (y % 100 != 0 || y % 400 == 0)
  }

  function DaysInMonth(y: int, m: int): int
    requires 1 <= m <= 12
  {
    if m == 2 then (if IsLeap(y) then 29 else 28)
    else if m == 4 || m == 6 || m == 9 || m == 11 then 30
    else 31
  }

  /** The values Python's `datetime` constructor accepts. */
  predicate Valid(d: DateTime)
  {
    && 1 <= d.year <= 9999 && 1 <= d.month <= 12 && 1 <= d.day <= DaysInMonth(d.year, d.month)
    && 0 <= d.hour <= 23 && 0 <= d.minute <= 59 && 0 <= d.second <= 59 && 0 <= d.micro <= 999999
  }

  /** `datetime.min`. */
  const MinDateTime := DateTime(1, 1, 1, 0, 0, 0, 0)

  /** Chronological order: field by field, most significant first. */
  predicate Before(a: DateTime, b: DateTime)
  {
    || a.year < b.year
    || (a.year == b.year && a.month < b.month)
    || (a.year == b.year && a.month == b.month && a.day < b.day)
    || (a.year == b.year && a.month == b.month && a.day == b.day && a.hour < b.hour)
    || (a.year == b.year && a.month == b.month && a.day == b.day && a.hour == b.hour && a.minute < b.minute)
    || (a.year == b.year && a.month == b.month && a.day == b.day && a.hour == b.hour && a.minute == b.minute
        && a.second < b.second)
    || (a.year == b.year && a.month == b.month && a.day == b.day && a.hour == b.hour && a.minute == b.minute
        && a.second == b.second && a.micro < b.micro)
  }

  function Mix(hi: int, lo: int, radix: nat): int
  {
    hi * radix + lo
  }

  /** A mixed-radix number of a valid date-time, used as the key when items are sorted by
      timestamp. */
  function Key(d: DateTime): real
  {
    Mix(Mix(Mix(Mix(Mix(Mix(d.year, d.month - 1, 12), d.day - 1, 31), d.hour, 24), d.minute, 60),
            d.second, 60), d.micro, 1000000) as real
  }

  lemma MixLess(h1: int, l1: int, h2: int, l2: int, radix: nat)
    requires 0 <= l1 < radix && 0 <= l2 < radix
    requires h1 < h2 || (h1 == h2 && l1 < l2)
    ensures Mix(h1, l1, radix) < Mix(h2, l2, radix)
  {
    if h1 < h2 {
      MulMono(h1 + 1, h2, radix);
      assert (h1 + 1) * radix == h1 * radix + radix;
    }
  }

  lemma MulMono(a: int, b: int, radix: nat)
    requires a <= b
    ensures a * radix <= b * radix
  {
    var d := b - a;
    assert d * radix >= 0;
    assert b * radix == a * radix + d * radix;
  }

  lemma MixEq(h1: int, l1: int, h2: int, l2: int, radix: nat)
    requires h1 == h2 && l1 == l2
    ensures Mix(h1, l1, radix) == Mix(h2, l2, radix)
  {
  }

  /** The sort key orders valid date-times chronologically. */
  lemma {:induction false} KeyIsChronological(a: DateTime, b: DateTime)
    requires Valid(a) && Valid(b)
    ensures Before(a, b) ==> Key(a) < Key(b)
  {
    var ym1, ym2 := Mix(a.year, a.month - 1, 12), Mix(b.year, b.month - 1, 12);
    var d1, d2 := Mix(ym1, a.day - 1, 31), Mix(ym2, b.day - 1, 31);
    var h1, h2 := Mix(d1, a.hour, 24), Mix(d2, b.hour, 24);
    var m1, m2 := Mix(h1, a.minute, 60), Mix(h2, b.minute, 60);
    var s1, s2 := Mix(m1, a.second, 60), Mix(m2, b.second, 60);
    if Before(a, b) {
      if a.year < b.year || (a.year == b.year && a.month < b.month) {
        MixLess(a.year, a.month - 1, b.year, b.month - 1, 12);
        MixLess(ym1, a.day - 1, ym2, b.day - 1, 31);
        MixLess(d1, a.hour, d2, b.hour, 24);
        MixLess(h1, a.minute, h2, b.minute, 60);
        MixLess(m1, a.second, m2, b.second, 60);
        MixLess(s1, a.micro, s2, b.micro, 1000000);
      } else if a.day < b.day {
        MixLess(ym1, a.day - 1, ym2, b.day - 1, 31);
        MixLess(d1, a.hour, d2, b.hour, 24);
        MixLess(h1, a.minute, h2, b.minute, 60);
        MixLess(m1, a.second, m2, b.second, 60);
        MixLess(s1, a.micro, s2, b.micro, 1000000);
      } else if a.hour < b.hour {
        MixLess(d1, a.hour, d2, b.hour, 24);
        MixLess(h1, a.minute, h2, b.minute, 60);
        MixLess(m1, a.second, m2, b.second, 60);
        MixLess(s1, a.micro, s2, b.micro, 1000000);
      } else if a.minute < b.minute {
        MixLess(h1, a.minute, h2, b.minute, 60);
        MixLess(m1, a.second, m2, b.second, 60);
        MixLess(s1, a.micro, s2, b.micro, 1000000);
      } else if a.second < b.second {
        MixLess(m1, a.second, m2, b.second, 60);
        MixLess(s1, a.micro, s2, b.micro, 1000000);
      } else {
        MixLess(s1, a.micro, s2, b.micro, 1000000);
      }
    }
  }

  /** `strftime('%Y-%m-%d')`. */
  function IsoDay(d: DateTime): string
  {
    ZeroPad(if d.year < 0 then 0 else d.year, 4) + "-" + ZeroPad(if d.month < 0 then 0 else d.month, 2)
    + "-" + ZeroPad(if d.day < 0 then 0 else d.day, 2)
  }

  /** `isoformat()`: microseconds are printed only when they are not zero. */
  function IsoFormat(d: DateTime): string
  {
    IsoDay(d) + "T" + ZeroPad(if d.hour < 0 then 0 else d.hour, 2) + ":"
    + ZeroPad(if d.minute < 0 then 0 else d.minute, 2) + ":" + ZeroPad(if d.second < 0 then 0 else d.second, 2)
    + (if d.micro == 0 then "" else "." + ZeroPad(if d.micro < 0 then 0 else d.micro, 6))
  }

  // ---------------------------------------------------------------------------
  // strptime: each directive is an alternation of fixed-length character-class
  // sequences, tried in order with backtracking (the regular expressions of Python's
  // _strptime module); the match must then consume the whole input and name a valid date.
  // ---------------------------------------------------------------------------

  datatype Component = Year | Month | Day | Hour | Minute | Second | Fraction | Literal

  datatype Directive = Directive(field: Component, alts: seq<seq<set<char>>>)

  const AnyDigit: set<char> := {'0', '1', '2', '3', '4', '5', '6', '7', '8', '9'}
  const NonZero: set<char> := {'1', '2', '3', '4', '5', '6', '7', '8', '9'}
  const UpToFive: set<char> := {'0', '1', '2', '3', '4', '5'}

  /** `(?P<Y>\d\d\d\d)` */
  const YearDirective := Directive(Year, [[AnyDigit, AnyDigit, AnyDigit, AnyDigit]])
  /** `(?P<m>1[0-2]|0[1-9]|[1-9])` */
  const MonthDirective := Directive(Month, [[{'1'}, {'0', '1', '2'}], [{'0'}, NonZero], [NonZero]])
  /** `(?P<d>3[01]|[12]\d|0[1-9]|[1-9]| [1-9])` */
  const DayDirective := Directive(Day, [[{'3'}, {'0', '1'}], [{'1', '2'}, AnyDigit], [{'0'}, NonZero],
                                        [NonZero], [{' '}, NonZero]])
  /** `(?P<H>2[0-3]|[0-1]\d|\d)` */
  const HourDirective := Directive(Hour, [[{'2'}, {'0', '1', '2', '3'}], [{'0', '1'}, AnyDigit], [AnyDigit]])
  /** `(?P<M>[0-5]\d|\d)` */
  const MinuteDirective := Directive(Minute, [[UpToFive, AnyDigit], [AnyDigit]])
  /** `(?P<S>6[0-1]|[0-5]\d|\d)` */
  const SecondDirective := Directive(Second, [[{'6'}, {'0', '1'}], [UpToFive, AnyDigit], [AnyDigit]])
  /** `(?P<f>[0-9]{1,6})`, greedy: the longest run is tried first. */
  const FractionDirective := Directive(Fraction, [
    [AnyDigit, AnyDigit, AnyDigit, AnyDigit, AnyDigit, AnyDigit], [AnyDigit, AnyDigit, AnyDigit, AnyDigit, AnyDigit],
    [AnyDigit, AnyDigit, AnyDigit, AnyDigit], [AnyDigit, AnyDigit, AnyDigit], [AnyDigit, AnyDigit], [AnyDigit]])

  /** A literal format character; the pattern is compiled case-insensitively. */
  function LiteralDirective(c: char): Directive
  {
    Directive(Literal, [[{c, LowerChar(c), UpperChar(c)}]])
  }

  predicate Fits(s: string, i: nat, alt: seq<set<char>>)
  {
    i + |alt| <= |s| && forall k :: 0 <= k < |alt| ==> s[i + k] in alt[k]
  }

  /** The first match of the directives `fmt` at position `i`, in backtracking order:
      the captured text of each directive and the end position. */
  function MatchFrom(fmt: seq<Directive>, s: string, i: nat): (r: Option<(seq<string>, nat)>)
    ensures r.Some? ==> |r.value.0| == |fmt| && i <= r.value.1 <= |s|
    decreases |fmt|, 1, 0
  {
    if fmt == [] then (if i <= |s| then Some(([], i)) else None)
    else TryAlts(fmt, fmt[0].alts, s, i)
  }

  function TryAlts(fmt: seq<Directive>, alts: seq<seq<set<char>>>, s: string, i: nat): (r: Option<(seq<string>, nat)>)
    requires fmt != []
    ensures r.Some? ==> |r.value.0| == |fmt| && i <= r.value.1 <= |s|
    decreases |fmt|, 0, |alts|
  {
    if alts == [] then None
    else if Fits(s, i, alts[0]) then
      match MatchFrom(fmt[1..], s, i + |alts[0]|)
      case Some(m) => Some(([s[i..i + |alts[0]|]] + m.0, m.1))
      case None => TryAlts(fmt, alts[1..], s, i)
    else TryAlts(fmt, alts[1..], s, i)
  }

  /** Python's `int()` of a captured group: its digits, ignoring the leading blank that
      `%d` may capture. */
  function NumberValue(s: string): nat
  {
    if s == [] then 0
    else if IsDigit(s[|s| - 1]) then NumberValue(s[..|s| - 1]) * 10 + DigitValue(s[|s| - 1])
    else NumberValue(s[..|s| - 1])
  }

  function Pow10(n: nat): nat
  {
    if n == 0 then 1 else 10 * Pow10(n - 1)
  }

  /** `%f` pads its digits on the right to six places. */
  function FractionValue(s: string): nat
  {
    if |s| >= 6 then NumberValue(s) else NumberValue(s) * Pow10(6 - |s|)
  }

  function SetField(d: DateTime, f: Component, text: string): DateTime
  {
    match f
    case Year => d.(year := NumberValue(text))
    case Month => d.(month := NumberValue(text))
    case Day => d.(day := NumberValue(text))
    case Hour => d.(hour := NumberValue(text))
    case Minute => d.(minute := NumberValue(text))
    case Second => d.(second := NumberValue(text))
    case Fraction => d.(micro := FractionValue(text))
    case Literal => d
  }

  /** Folds the captured groups into a date-time, starting from strptime's defaults. */
  function Assemble(fmt: seq<Directive>, caps: seq<string>, d: DateTime): DateTime
    requires |caps| == |fmt|
  {
    if fmt == [] then d else Assemble(fmt[1..], caps[1..], SetField(d, fmt[0].field, caps[0]))
  }

  /** `datetime.strptime(s, fmt)`: `None` where Python raises `ValueError` (no match,
      unconverted data remaining, or a date the calendar does not have). */
  function Strptime(fmt: seq<Directive>, s: string): (r: Option<DateTime>)
    ensures r.Some? ==> Valid(r.value)
  {
    match MatchFrom(fmt, s, 0)
    case None => None
    case Some(m) =>
      if m.1 != |s| then None
      else
        var d := Assemble(fmt, m.0, DateTime(1900, 1, 1, 0, 0, 0, 0));
        if Valid(d) then Some(d) else None
  }

  /** `%Y%m%d` */
  const CompactDate: seq<Directive> := [YearDirective, MonthDirective, DayDirective]
  /** `%Y-%m-%d` */
  const DashedDate: seq<Directive> := [YearDirective, LiteralDirective('-'), MonthDirective,
                                       LiteralDirective('-'), DayDirective]
  /** `%Y-%m-%dT%H:%M:%SZ` */
  const IsoSeconds: seq<Directive> := DashedDate + [LiteralDirective('T'), HourDirective, LiteralDirective(':'),
                                       MinuteDirective, LiteralDirective(':'), SecondDirective, LiteralDirective('Z')]
  /** `%Y-%m-%dT%H:%M:%S.%fZ` */
  const IsoMicros: seq<Directive> := DashedDate + [LiteralDirective('T'), HourDirective, LiteralDirective(':'),
                                       MinuteDirective, LiteralDirective(':'), SecondDirective, LiteralDirective('.'),
                                       FractionDirective, LiteralDirective('Z')]

  // ---------------------------------------------------------------------------
  // Rendering a date and parsing it back
  // ---------------------------------------------------------------------------

  lemma {:induction false} NumberValueConcat(a: string, b: string)
    requires AllDigits(b)
    ensures NumberValue(a + b) == NumberValue(a) * Pow10(|b|) + NumberValue(b)
    decreases |b|
  {
    if b == [] {
      assert a + b == a;
    } else {
      var b', c := b[..|b| - 1], b[|b| - 1];
      assert (a + b)[..|a + b| - 1] == a + b' && (a + b)[|a + b| - 1] == c;
      NumberValueConcat(a, b');
      assert IsDigit(c);
      ShiftDigit(NumberValue(a), Pow10(|b'|), NumberValue(b'), DigitValue(c));
    }
  }

  lemma ShiftDigit(x: int, p: int, y: int, c: int)
    ensures (x * p + y) * 10 + c == x * (10 * p) + (y * 10 + c)
  {
  }

  lemma {:induction false} NumberValueOfNat(n: nat)
    ensures NumberValue(NatToString(n)) == n
    decreases n
  {
    if n >= 10 {
      var s := NatToString(n);
      assert s[..|s| - 1] == NatToString(n / 10);
      NumberValueOfNat(n / 10);
    }
  }

  lemma {:induction false} NumberValueZeros(k: nat)
    ensures NumberValue(seq(k, _ => '0')) == 0
  {
    if k > 0 {
      assert seq(k, _ => '0')[..k - 1] == seq(k - 1, _ => '0');
      NumberValueZeros(k - 1);
    }
  }

  lemma {:induction false} NatToStringLength(n: nat, w: nat)
    requires w > 0 && n < Pow10(w)
    ensures |NatToString(n)| <= w
    decreases n
  {
    if n >= 10 {
      NatToStringLength(n / 10, w - 1);
    }
  }

  /** A zero-padded number reads back as the number, in exactly `width` digits when it
      fits. */
  lemma ZeroPadValue(n: nat, width: nat)
    requires width > 0 && n < Pow10(width)
    ensures |ZeroPad(n, width)| == width
    ensures NumberValue(ZeroPad(n, width)) == n
  {
    var s := NatToString(n);
    NatToStringLength(n, width);
    NumberValueOfNat(n);
    if |s| < width {
      var zeros := seq(width - |s|, _ => '0');
      assert ZeroPad(n, width) == zeros + s;
      NatToStringDigits(n);
      NumberValueConcat(zeros, s);
      NumberValueZeros(width - |s|);
      assert NumberValue(zeros + s) == 0 * Pow10(|s|) + n;
    } else {
      assert ZeroPad(n, width) == s;
    }
  }

  lemma ZeroPad2(n: nat)
    requires n < 100
    ensures ZeroPad(n, 2) == [DigitChar(n / 10), DigitChar(n % 10)]
  {
    if n >= 10 {
      assert NatToString(n) == NatToString(n / 10) + [DigitChar(n % 10)];
    }
  }

  /** The first alternative that fits at `i` is taken when the rest of the format then
      matches. */
  lemma {:induction false} TryAltsAt(fmt: seq<Directive>, alts: seq<seq<set<char>>>, s: string, i: nat, k: nat)
    requires fmt != [] && k < |alts|
    requires forall j :: 0 <= j < k ==> !Fits(s, i, alts[j])
    requires Fits(s, i, alts[k]) && MatchFrom(fmt[1..], s, i + |alts[k]|).Some?
    ensures var m := MatchFrom(fmt[1..], s, i + |alts[k]|).value;
      TryAlts(fmt, alts, s, i) == Some(([s[i..i + |alts[k]|]] + m.0, m.1))
    decreases k
  {
    if k > 0 {
      assert !Fits(s, i, alts[0]);
      TryAltsAt(fmt, alts[1..], s, i, k - 1);
    }
  }

  lemma MatchYear(fmt: seq<Directive>, s: string, i: nat)
    requires fmt != [] && fmt[0] == YearDirective
    requires i + 4 <= |s| && AllDigits(s[i..i + 4])
    requires MatchFrom(fmt[1..], s, i + 4).Some?
    ensures var m := MatchFrom(fmt[1..], s, i + 4).value;
      MatchFrom(fmt, s, i) == Some(([s[i..i + 4]] + m.0, m.1))
  {
    forall k | i <= k < i + 4 ensures s[k] in AnyDigit {
      assert s[k] == s[i..i + 4][k - i];
    }
    TryAltsAt(fmt, fmt[0].alts, s, i, 0);
  }

  lemma MatchLiteral(fmt: seq<Directive>, s: string, i: nat, c: char)
    requires fmt != [] && fmt[0] == LiteralDirective(c)
    requires i < |s| && s[i] == c
    requires MatchFrom(fmt[1..], s, i + 1).Some?
    ensures var m := MatchFrom(fmt[1..], s, i + 1).value;
      MatchFrom(fmt, s, i) == Some(([s[i..i + 1]] + m.0, m.1))
  {
    TryAltsAt(fmt, fmt[0].alts, s, i, 0);
  }

  lemma MatchMonth(fmt: seq<Directive>, s: string, i: nat, month: nat)
    requires fmt != [] && fmt[0] == MonthDirective && 1 <= month <= 12
    requires i + 2 <= |s| && s[i..i + 2] == ZeroPad(month, 2)
    requires MatchFrom(fmt[1..], s, i + 2).Some?
    ensures var m := MatchFrom(fmt[1..], s, i + 2).value;
      MatchFrom(fmt, s, i) == Some(([s[i..i + 2]] + m.0, m.1))
  {
    ZeroPad2(month);
    assert s[i] == DigitChar(month / 10) && s[i + 1] == DigitChar(month % 10);
    if month >= 10 {
      TryAltsAt(fmt, fmt[0].alts, s, i, 0);
    } else {
      assert s[i] !in MonthDirective.alts[0][0];
      TryAltsAt(fmt, fmt[0].alts, s, i, 1);
    }
  }

  lemma MatchDay(fmt: seq<Directive>, s: string, i: nat, day: nat)
    requires fmt != [] && fmt[0] == DayDirective && 1 <= day <= 31
    requires i + 2 <= |s| && s[i..i + 2] == ZeroPad(day, 2)
    requires MatchFrom(fmt[1..], s, i + 2).Some?
    ensures var m := MatchFrom(fmt[1..], s, i + 2).value;
      MatchFrom(fmt, s, i) == Some(([s[i..i + 2]] + m.0, m.1))
  {
    ZeroPad2(day);
    assert s[i] == DigitChar(day / 10) && s[i + 1] == DigitChar(day % 10);
    if day >= 30 {
      TryAltsAt(fmt, fmt[0].alts, s, i, 0);
    } else if day >= 10 {
      assert s[i] !in DayDirective.alts[0][0];
      TryAltsAt(fmt, fmt[0].alts, s, i, 1);
    } else {
      assert s[i] !in DayDirective.alts[0][0] && s[i] !in DayDirective.alts[1][0];
      TryAltsAt(fmt, fmt[0].alts, s, i, 2);
    }
  }

  /** A calendar day at midnight. */
  predicate IsDay(d: DateTime)
  {
    Valid(d) && d.hour == 0 && d.minute == 0 && d.second == 0 && d.micro == 0
  }

  /** `%Y%m%d` of a date: the form of yt-dlp's `upload_date`. */
  function CompactText(d: DateTime): string
    requires Valid(d)
  {
    ZeroPad(d.year, 4) + ZeroPad(d.month, 2) + ZeroPad(d.day, 2)
  }

  /** Parsing the eight digits of a day with `%Y%m%d` gives that day back. */
  lemma CompactDateRoundTrip(d: DateTime)
    requires IsDay(d)
    ensures Strptime(CompactDate, CompactText(d)) == Some(d)
  {
    var y, m, dd := ZeroPad(d.year, 4), ZeroPad(d.month, 2), ZeroPad(d.day, 2);
    ZeroPadValue(d.year, 4);
    ZeroPadValue(d.month, 2);
    ZeroPadValue(d.day, 2);
    var s := y + m + dd;
    assert s[0..4] == y && s[4..6] == m && s[6..8] == dd;
    assert CompactDate[1..] == [MonthDirective, DayDirective] && CompactDate[2..] == [DayDirective];
    assert MatchFrom([], s, 8) == Some(([], 8));
    assert CompactDate[2..][1..] == [];
    assert MatchFrom(CompactDate[2..][1..], s, 8) == Some(([], 8));
    MatchDay(CompactDate[2..], s, 6, d.day);
    assert [s[6..8]] + [] == [dd];
    assert MatchFrom(CompactDate[2..], s, 6) == Some(([dd], 8));
    assert CompactDate[1..][1..] == CompactDate[2..];
    MatchMonth(CompactDate[1..], s, 4, d.month);
    assert [s[4..6]] + [dd] == [m, dd];
    assert MatchFrom(CompactDate[1..], s, 4) == Some(([m, dd], 8));
    assert CompactDate[1..] == [MonthDirective, DayDirective];
    MatchYear(CompactDate, s, 0);
    var caps := [y, m, dd];
    assert [s[0..4]] + [m, dd] == caps;
    assert MatchFrom(CompactDate, s, 0) == Some((caps, 8));
    AssembleCompact(caps);
  }

  /** Parsing `strftime('%Y-%m-%d')` of a day with `%Y-%m-%d` gives that day back. */
  lemma DashedDateRoundTrip(d: DateTime)
    requires IsDay(d)
    ensures Strptime(DashedDate, IsoDay(d)) == Some(d)
  {
    var y, m, dd := ZeroPad(d.year, 4), ZeroPad(d.month, 2), ZeroPad(d.day, 2);
    ZeroPadValue(d.year, 4);
    ZeroPadValue(d.month, 2);
    ZeroPadValue(d.day, 2);
    var s := IsoDay(d);
    assert s == y + "-" + m + "-" + dd;
    assert s[0..4] == y && s[4..5] == "-" && s[5..7] == m && s[7..8] == "-" && s[8..10] == dd;
    DashedMonthDay(s, d.month, d.day);
    var f := DashedDate;
    assert f[1..] == [LiteralDirective('-'), MonthDirective, LiteralDirective('-'), DayDirective];
    assert f[1..][1..] == f[2..];
    MatchLiteral(f[1..], s, 4, '-');
    assert [s[4..5]] + [m, "-", dd] == ["-", m, "-", dd];
    assert MatchFrom(f[1..], s, 4) == Some((["-", m, "-", dd], 10));
    MatchYear(f, s, 0);
    var caps := [y, "-", m, "-", dd];
    assert [s[0..4]] + ["-", m, "-", dd] == caps;
    assert MatchFrom(f, s, 0) == Some((caps, 10));
    AssembleDashed(caps);
  }

  /** The `%m-%d` part of `%Y-%m-%d` matches the last five characters of a dashed day. */
  lemma DashedMonthDay(s: string, month: nat, day: nat)
    requires |s| == 10 && 1 <= month <= 12 && 1 <= day <= 31
    requires s[5..7] == ZeroPad(month, 2) && s[7..8] == "-" && s[8..10] == ZeroPad(day, 2)
    ensures MatchFrom(DashedDate[2..], s, 5) == Some(([s[5..7], "-", s[8..10]], 10))
  {
    var f := DashedDate;
    var m, dd := s[5..7], s[8..10];
    assert f[2..] == [MonthDirective, LiteralDirective('-'), DayDirective];
    assert f[3..] == [LiteralDirective('-'), DayDirective] && f[4..] == [DayDirective];
    assert MatchFrom([], s, 10) == Some(([], 10));
    assert f[4..][1..] == [];
    MatchDay(f[4..], s, 8, day);
    assert [s[8..10]] + [] == [dd];
    assert MatchFrom(f[4..], s, 8) == Some(([dd], 10));
    assert f[3..][1..] == f[4..];
    MatchLiteral(f[3..], s, 7, '-');
    assert [s[7..8]] + [dd] == ["-", dd];
    assert MatchFrom(f[3..], s, 7) == Some((["-", dd], 10));
    assert f[2..][1..] == f[3..];
    MatchMonth(f[2..], s, 5, month);
    assert [s[5..7]] + ["-", dd] == [m, "-", dd];
  }

  lemma AssembleCompact(caps: seq<string>)
    requires |caps| == 3
    ensures Assemble(CompactDate, caps, DateTime(1900, 1, 1, 0, 0, 0, 0))
            == DateTime(NumberValue(caps[0]), NumberValue(caps[1]), NumberValue(caps[2]), 0, 0, 0, 0)
  {
    var f := CompactDate;
    var d0 := DateTime(1900, 1, 1, 0, 0, 0, 0);
    var d1 := d0.(year := NumberValue(caps[0]));
    var d2 := d1.(month := NumberValue(caps[1]));
    var d3 := d2.(day := NumberValue(caps[2]));
    assert f[1..] == [MonthDirective, DayDirective] && f[1..][1..] == [DayDirective] && f[1..][1..][1..] == [];
    assert Assemble(f, caps, d0) == Assemble(f[1..], caps[1..], d1);
    assert Assemble(f[1..], caps[1..], d1) == Assemble(f[1..][1..], caps[1..][1..], d2);
    assert Assemble(f[1..][1..], caps[1..][1..], d2) == Assemble([], caps[1..][1..][1..], d3);
  }

  lemma AssembleDashed(caps: seq<string>)
    requires |caps| == 5
    ensures Assemble(DashedDate, caps, DateTime(1900, 1, 1, 0, 0, 0, 0))
            == DateTime(NumberValue(caps[0]), NumberValue(caps[2]), NumberValue(caps[4]), 0, 0, 0, 0)
  {
    var f := DashedDate;
    var d0 := DateTime(1900, 1, 1, 0, 0, 0, 0);
    var d1 := d0.(year := NumberValue(caps[0]));
    var d3 := d1.(month := NumberValue(caps[2]));
    var d5 := d3.(day := NumberValue(caps[4]));
    var f1, f2, f3, f4 := f[1..], f[2..], f[3..], f[4..];
    assert f1 == [LiteralDirective('-'), MonthDirective, LiteralDirective('-'), DayDirective];
    assert f1[1..] == f2 && f2[1..] == f3 && f3[1..] == f4 && f4[1..] == [];
    assert f2[0] == MonthDirective && f4[0] == DayDirective;
    assert Assemble(f, caps, d0) == Assemble(f1, caps[1..], d1);
    assert Assemble(f1, caps[1..], d1) == Assemble(f2, caps[2..], d1);
    assert Assemble(f2, caps[2..], d1) == Assemble(f3, caps[3..], d3);
    assert Assemble(f3, caps[3..], d3) == Assemble(f4, caps[4..], d3);
    assert Assemble(f4, caps[4..], d3) == Assemble([], caps[5..], d5);
  }

  /** Every alternative of the directive reads at least one character. */
  predicate Consuming(dir: Directive)
  {
    forall a :: a in dir.alts ==> a != []
  }

  /** A match of directives that each read a character is at least as long as the format. */
  lemma {:induction false} MatchConsumes(fmt: seq<Directive>, s: string, i: nat)
    requires forall j :: 0 <= j < |fmt| ==> Consuming(fmt[j])
    ensures MatchFrom(fmt, s, i).Some? ==> i + |fmt| <= MatchFrom(fmt, s, i).value.1
    decreases |fmt|, 1, 0
  {
    if fmt != [] {
      TryAltsConsume(fmt, fmt[0].alts, s, i);
    }
  }

  lemma {:induction false} TryAltsConsume(fmt: seq<Directive>, alts: seq<seq<set<char>>>, s: string, i: nat)
    requires fmt != [] && forall j :: 0 <= j < |fmt| ==> Consuming(fmt[j])
    requires forall a :: a in alts ==> a != []
    ensures TryAlts(fmt, alts, s, i).Some? ==> i + |fmt| <= TryAlts(fmt, alts, s, i).value.1
    decreases |fmt|, 0, |alts|
  {
    if alts != [] {
      assert alts[0] in alts;
      if Fits(s, i, alts[0]) {
        assert forall j :: 0 <= j < |fmt[1..]| ==> fmt[1..][j] == fmt[j + 1];
        MatchConsumes(fmt[1..], s, i + |alts[0]|);
      }
      assert forall a :: a in alts[1..] ==> a in alts;
      TryAltsConsume(fmt, alts[1..], s, i);
    }
  }

  /** A text shorter than the format cannot be parsed by it. */
  lemma ShortTextFails(fmt: seq<Directive>, s: string)
    requires forall j :: 0 <= j < |fmt| ==> Consuming(fmt[j])
    requires |s| < |fmt|
    ensures Strptime(fmt, s) == None
  {
    MatchConsumes(fmt, s, 0);
  }

  /** Neither timestamp format with a time of day accepts a bare `%Y-%m-%d` day. */
  lemma TimedFormatsRejectDay(d: DateTime)
    requires IsDay(d)
    ensures Strptime(IsoMicros, IsoDay(d)) == None && Strptime(IsoSeconds, IsoDay(d)) == None
  {
    ZeroPadValue(d.year, 4);
    ZeroPadValue(d.month, 2);
    ZeroPadValue(d.day, 2);
    assert |IsoDay(d)| == 10;
    ShortTextFails(IsoMicros, IsoDay(d));
    ShortTextFails(IsoSeconds, IsoDay(d));
  }

  /** Whatever `%Y%m%d` parses is a day at midnight. */
  lemma StrptimeCompactIsDay(s: string)
    ensures Strptime(CompactDate, s).Some? ==> IsDay(Strptime(CompactDate, s).value)
  {
    var m := MatchFrom(CompactDate, s, 0);
    if m.Some? {
      AssembleCompact(m.value.0);
    }
  }
}

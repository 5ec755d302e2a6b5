/** Shared value types and the Python string and number operations the services rely on:
    slicing, joining, ASCII case mapping, whitespace stripping, substring counting and
    decimal rendering and parsing. */
module Common {

  datatype Option<T> = None | Some(value: T)

  /** The outcome of a call that the source lets raise: a value, or the exception's text. */
  datatype Result<T, E> = Ok(value: T) | Err(error: E)

  // ---------------------------------------------------------------------------
  // Slicing and truncation
  // ---------------------------------------------------------------------------

  /** Python's `s[:n]` for a non-negative `n`. */
  function Take<T>(s: seq<T>, n: nat): (r: seq<T>)
    ensures |r| == if |s| < n then |s| else n
    ensures r == s[..|r|]
  {
    if |s| <= n then s else s[..n]
  }

  /** The budget guard used throughout the chat service: keep `s` when it fits in `cap`
      characters, otherwise keep its first `cap` characters and append `marker`. */
  function Cap(s: string, cap: nat, marker: string): (r: string)
    ensures |s| <= cap ==> r == s
    ensures |s| > cap ==> r == s[..cap] + marker
  {
    if |s| > cap then s[..cap] + marker else s
  }

  /** The common ending of the truncation markers of the chat service's budget guards. */
  const TruncatedToFit := " truncated to fit token limits]"

  lemma CapBound(s: string, cap: nat, marker: string)
    ensures |Cap(s, cap, marker)| <= cap + |marker|
    ensures |Cap(s, cap, marker)| <= |s| || |s| > cap
  {
  }

  /** Python's `sep.join(parts)`. */
  function Join(parts: seq<string>, sep: string): string
  {
    if |parts| == 0 then ""
    else if |parts| == 1 then parts[0]
    else parts[0] + sep + Join(parts[1..], sep)
  }

  /** A join starts with its first piece. */
  lemma JoinStartsWithFirst(parts: seq<string>, sep: string)
    requires |parts| > 0
    ensures StartsWith(Join(parts, sep), parts[0])
  {
    if |parts| > 1 {
      assert Join(parts, sep) == parts[0] + (sep + Join(parts[1..], sep));
      assert Join(parts, sep)[..|parts[0]|] == parts[0];
    }
  }

  /** Python's `"".join(parts)`. */
  function Concat(parts: seq<string>): string
  {
    if parts == [] then "" else parts[0] + Concat(parts[1..])
  }

  lemma ConcatAppend(parts: seq<string>, x: string)
    ensures Concat(parts + [x]) == Concat(parts) + x
  {
    if parts == [] {
      assert [] + [x] == [x];
    } else {
      assert (parts + [x])[1..] == parts[1..] + [x];
      ConcatAppend(parts[1..], x);
    }
  }

  lemma JoinAppend(parts: seq<string>, x: string, sep: string)
    requires |parts| > 0
    ensures Join(parts + [x], sep) == Join(parts, sep) + sep + x
  {
    if |parts| == 1 {
      assert (parts + [x])[1..] == [x];
    } else {
      assert (parts + [x])[1..] == parts[1..] + [x];
      JoinAppend(parts[1..], x, sep);
    }
  }

  /** Number of occurrences of `c` in `s`. */
  function CountChar(s: string, c: char): nat
  {
    if s == [] then 0 else (if s[0] == c then 1 else 0) + CountChar(s[1..], c)
  }

  lemma CountCharConcat(a: string, b: string, c: char)
    ensures CountChar(a + b, c) == CountChar(a, c) + CountChar(b, c)
  {
    if a == [] {
      assert a + b == b;
    } else {
      assert (a + b)[1..] == a[1..] + b;
      CountCharConcat(a[1..], b, c);
    }
  }

  /** Joining `k` pieces none of which holds `c`, with the one-character separator `c`,
      yields exactly `k - 1` occurrences of `c`: the pieces can be told apart again. */
  lemma {:induction false} JoinCountsSeparators(parts: seq<string>, c: char)
    requires |parts| > 0
    requires forall i :: 0 <= i < |parts| ==> CountChar(parts[i], c) == 0
    ensures CountChar(Join(parts, [c]), c) == |parts| - 1
  {
    if |parts| > 1 {
      JoinCountsSeparators(parts[1..], c);
      CountCharConcat(parts[0], [c], c);
      CountCharConcat(parts[0] + [c], Join(parts[1..], [c]), c);
      assert CountChar([c], c) == 1;
    }
  }

  // ---------------------------------------------------------------------------
  // Prefixes, substrings, counting
  // ---------------------------------------------------------------------------

  predicate StartsWith(s: string, p: string)
  {
    |p| <= |s| && s[..|p|] == p
  }

  predicate EndsWith(s: string, p: string)
  {
    |p| <= |s| && s[|s| - |p|..] == p
  }

  predicate OccursAt(s: string, sub: string, i: nat)
  {
    i + |sub| <= |s| && s[i..i + |sub|] == sub
  }

  /** Some line of `parts` starts with `prefix`. */
  predicate HasPart(parts: seq<string>, prefix: string)
  {
    exists k :: 0 <= k < |parts| && StartsWith(parts[k], prefix)
  }

  lemma HasPartAppend(a: seq<string>, b: seq<string>, prefix: string)
    ensures HasPart(a + b, prefix) <==> HasPart(a, prefix) || HasPart(b, prefix)
  {
    if HasPart(a + b, prefix) {
      var k :| 0 <= k < |a + b| && StartsWith((a + b)[k], prefix);
      if k >= |a| {
        assert b[k - |a|] == (a + b)[k];
      }
    }
    if HasPart(a, prefix) {
      var k :| 0 <= k < |a| && StartsWith(a[k], prefix);
      assert (a + b)[k] == a[k];
    }
    if HasPart(b, prefix) {
      var k :| 0 <= k < |b| && StartsWith(b[k], prefix);
      assert (a + b)[|a| + k] == b[k];
    }
  }

  /** A string whose character at `i` differs from the prefix's does not start with it. */
  lemma Mismatch(s: string, prefix: string, i: nat)
    requires i < |s| && i < |prefix| && s[i] != prefix[i]
    ensures !StartsWith(s, prefix)
  {
    assert |prefix| <= |s| ==> s[..|prefix|][i] == s[i];
  }

  /** No line starts with a prefix whose first character differs from every line's. */
  lemma NoPartStartsWith(parts: seq<string>, prefix: string)
    requires |prefix| > 0
    requires forall k :: 0 <= k < |parts| ==> |parts[k]| > 0 && parts[k][0] != prefix[0]
    ensures !HasPart(parts, prefix)
  {
    forall k | 0 <= k < |parts| ensures !StartsWith(parts[k], prefix) {
      Mismatch(parts[k], prefix, 0);
    }
  }

  /** Python's `sub in s`. */
  predicate Contains(s: string, sub: string)
  {
    exists i | 0 <= i <= |s| :: OccursAt(s, sub, i)
  }

  /** `sub` occurs in `s` at `i` or after it, found by scanning left to right. */
  predicate OccursFrom(s: string, sub: string, i: nat)
    decreases |s| - i
  {
    i + |sub| <= |s| && (OccursAt(s, sub, i) || OccursFrom(s, sub, i + 1))
  }

  /** The scan finds `sub` exactly when it occurs somewhere from `i` on. */
  lemma {:induction false} OccursFromIff(s: string, sub: string, i: nat)
    ensures OccursFrom(s, sub, i) <==> exists j | i <= j <= |s| :: OccursAt(s, sub, j)
    decreases |s| - i
  {
    if i + |sub| <= |s| {
      OccursFromIff(s, sub, i + 1);
      if exists j | i <= j <= |s| :: OccursAt(s, sub, j) {
        var j :| i <= j <= |s| && OccursAt(s, sub, j);
        if j > i {
          assert i + 1 <= j;
        }
      }
    }
  }

  lemma ContainsMiddle(a: string, b: string, c: string)
    ensures Contains(a + b + c, b)
  {
    assert (a + b + c)[|a|..|a| + |b|] == b;
    assert OccursAt(a + b + c, b, |a|);
  }

  /** Non-overlapping occurrences of a non-empty `sub` in `s[i..]`, scanning left to right. */
  function CountFrom(s: string, sub: string, i: nat): nat
    requires |sub| > 0
    decreases |s| - i
  {
    if i + |sub| > |s| then 0
    else if s[i..i + |sub|] == sub then 1 + CountFrom(s, sub, i + |sub|)
    else CountFrom(s, sub, i + 1)
  }

  /** Python's `s.count(sub)`. */
  function Count(s: string, sub: string): nat
  {
    if sub == [] then |s| + 1 else CountFrom(s, sub, 0)
  }

  lemma {:induction false} CountFromPositive(s: string, sub: string, i: nat)
    requires |sub| > 0
    ensures CountFrom(s, sub, i) > 0 <==> exists k | i <= k <= |s| :: OccursAt(s, sub, k)
    decreases |s| - i
  {
    if i + |sub| > |s| {
    } else if s[i..i + |sub|] == sub {
      assert OccursAt(s, sub, i);
    } else {
      CountFromPositive(s, sub, i + 1);
      if exists k | i <= k <= |s| :: OccursAt(s, sub, k) {
        var k :| i <= k <= |s| && OccursAt(s, sub, k);
        assert k != i;
      }
    }
  }

  /** A non-empty `sub` is counted at least once exactly when it occurs in `s`. */
  lemma CountPositiveIffContains(s: string, sub: string)
    requires |sub| > 0
    ensures Count(s, sub) > 0 <==> Contains(s, sub)
  {
    CountFromPositive(s, sub, 0);
  }

  // ---------------------------------------------------------------------------
  // Characters: ASCII case mapping, Python whitespace
  // ---------------------------------------------------------------------------

  predicate IsAsciiUpper(c: char) { 'A' <= c <= 'Z' }
  predicate IsAsciiLower(c: char) { 'a' <= c <= 'z' }
  predicate IsAsciiLetter(c: char) { IsAsciiUpper(c) || IsAsciiLower(c) }
  predicate IsDigit(c: char) { '0' <= c <= '9' }

  function LowerChar(c: char): (r: char)
    ensures !IsAsciiUpper(r)
    ensures IsAsciiLetter(c) <==> IsAsciiLetter(r)
  {
    if IsAsciiUpper(c) then (c as int + 32) as char else c
  }

  function UpperChar(c: char): (r: char)
    ensures !IsAsciiLower(r)
    ensures IsAsciiLetter(c) <==> IsAsciiLetter(r)
  {
    if IsAsciiLower(c) then (c as int - 32) as char else c
  }

  /** Python's `s.lower()` on the ASCII letters; every other character is kept. */
  function Lower(s: string): (r: string)
    ensures |r| == |s|
    ensures forall i :: 0 <= i < |s| ==> r[i] == LowerChar(s[i])
  {
    seq(|s|, i requires 0 <= i < |s| => LowerChar(s[i]))
  }

  lemma LowerConcat(a: string, b: string)
    ensures Lower(a + b) == Lower(a) + Lower(b)
  {
  }

  /** Python's `str.isspace()` for one character: the characters that `str.strip()` removes. */
  predicate IsSpace(c: char)
  {
    c == ' ' || c == '\t' || c == '\n' || c == '\r' || c == '\U{0B}' || c == '\U{0C}'
    || ('\U{1C}' <= c <= '\U{1F}') || c == '\U{85}' || c == '\U{A0}' || c == '\U{1680}'
    || ('\U{2000}' <= c <= '\U{200A}') || c == '\U{2028}' || c == '\U{2029}'
    || c == '\U{202F}' || c == '\U{205F}' || c == '\U{3000}'
  }

  function StripStart(s: string): (r: string)
    ensures |r| <= |s| && r == s[|s| - |r|..]
    ensures r == [] || !IsSpace(r[0])
    ensures forall i :: 0 <= i < |s| - |r| ==> IsSpace(s[i])
  {
    if |s| > 0 && IsSpace(s[0]) then
      var r := StripStart(s[1..]);
      assert forall i :: 1 <= i < |s| - |r| ==> s[i] == s[1..][i - 1];
      r
    else s
  }

  function StripEnd(s: string): (r: string)
    ensures |r| <= |s| && r == s[..|r|]
    ensures r == [] || !IsSpace(r[|r| - 1])
    ensures forall i :: |r| <= i < |s| ==> IsSpace(s[i])
  {
    if |s| > 0 && IsSpace(s[|s| - 1]) then StripEnd(s[..|s| - 1]) else s
  }

  /** Python's `s.strip()`. */
  function Strip(s: string): string
  {
    StripEnd(StripStart(s))
  }

  /** Python's `s.strip()` is empty exactly when every character of `s` is whitespace. */
  lemma StripEmptyIffBlank(s: string)
    ensures Strip(s) == [] <==> forall i :: 0 <= i < |s| ==> IsSpace(s[i])
  {
    var t := StripStart(s);
    if Strip(s) == [] {
      forall i | 0 <= i < |s| ensures IsSpace(s[i]) {
        if i >= |s| - |t| {
          assert s[i] == t[i - (|s| - |t|)];
        }
      }
    } else {
      assert t != [];
      assert !IsSpace(t[0]);
      assert s[|s| - |t|] == t[0];
    }
  }

  /** Python's `s.rstrip(c)` for a single character. */
  function RStripChar(s: string, c: char): (r: string)
    ensures |r| <= |s| && r == s[..|r|]
    ensures r == [] || r[|r| - 1] != c
  {
    if |s| > 0 && s[|s| - 1] == c then RStripChar(s[..|s| - 1], c) else s
  }

  /** Python's `s.lstrip(c)` for a single character. */
  function LStripChar(s: string, c: char): (r: string)
    ensures |r| <= |s| && r == s[|s| - |r|..]
    ensures r == [] || r[0] != c
  {
    if |s| > 0 && s[0] == c then LStripChar(s[1..], c) else s
  }

  /** Python's `s.split(c)` for a single separator character. */
  function Split(s: string, c: char): (r: seq<string>)
    ensures |r| > 0
    ensures forall k :: 0 <= k < |r| ==> c !in r[k]
  {
    SplitFrom(s, c, 0, 0)
  }

  function SplitFrom(s: string, c: char, start: nat, i: nat): (r: seq<string>)
    requires start <= i <= |s|
    requires forall k :: start <= k < i ==> s[k] != c
    ensures |r| > 0
    ensures forall k :: 0 <= k < |r| ==> c !in r[k]
    decreases |s| - i
  {
    if i == |s| then [s[start..]]
    else if s[i] == c then [s[start..i]] + SplitFrom(s, c, i + 1, i + 1)
    else SplitFrom(s, c, start, i + 1)
  }

  lemma {:induction false} SplitFromShift(a: string, b: string, c: char, start: nat, i: nat)
    requires start <= i <= |b|
    requires forall k :: start <= k < i ==> b[k] != c
    ensures SplitFrom(a + b, c, |a| + start, |a| + i) == SplitFrom(b, c, start, i)
    decreases |b| - i
  {
    var s := a + b;
    assert forall k :: |a| <= k < |s| ==> s[k] == b[k - |a|];
    if i == |b| {
      assert s[|a| + start..] == b[start..];
    } else if b[i] == c {
      assert s[|a| + start..|a| + i] == b[start..i];
      SplitFromShift(a, b, c, i + 1, i + 1);
    } else {
      SplitFromShift(a, b, c, start, i + 1);
    }
  }

  lemma {:induction false} SplitFromNoSep(s: string, c: char, start: nat, i: nat)
    requires start <= i <= |s|
    requires forall k :: start <= k < |s| ==> s[k] != c
    ensures SplitFrom(s, c, start, i) == [s[start..]]
    decreases |s| - i
  {
    if i < |s| {
      SplitFromNoSep(s, c, start, i + 1);
    }
  }

  lemma {:induction false} SplitFromUpTo(s: string, c: char, start: nat, i: nat, j: nat)
    requires start <= i <= j < |s|
    requires forall k :: start <= k < j ==> s[k] != c
    requires s[j] == c
    ensures SplitFrom(s, c, start, i) == [s[start..j]] + SplitFrom(s, c, j + 1, j + 1)
    decreases j - i
  {
    if i < j {
      SplitFromUpTo(s, c, start, i + 1, j);
    }
  }

  /** Splitting a join of pieces that do not hold the separator gives the pieces back. */
  lemma {:induction false} SplitJoin(parts: seq<string>, c: char)
    requires |parts| > 0
    requires forall i :: 0 <= i < |parts| ==> c !in parts[i]
    ensures Split(Join(parts, [c]), c) == parts
  {
    var p0 := parts[0];
    if |parts| == 1 {
      SplitFromNoSep(p0, c, 0, 0);
      assert p0[0..] == p0;
    } else {
      var rest := Join(parts[1..], [c]);
      var s := Join(parts, [c]);
      assert s == (p0 + [c]) + rest;
      assert forall k :: 0 <= k < |p0| ==> s[k] == p0[k];
      SplitFromUpTo(s, c, 0, 0, |p0|);
      assert s[0..|p0|] == p0;
      SplitFromShift(p0 + [c], rest, c, 0, 0);
      SplitJoin(parts[1..], c);
      assert parts == [p0] + parts[1..];
    }
  }

  // ---------------------------------------------------------------------------
  // Decimal numbers: Python's str(n), int(s) and the thousands-separator format `format(n, ",")`
  // ---------------------------------------------------------------------------

  function DigitChar(d: nat): (c: char)
    requires d < 10
    ensures IsDigit(c)
  {
    ('0' as int + d) as char
  }

  function DigitValue(c: char): nat
    requires IsDigit(c)
  {
    c as int - '0' as int
  }

  /** Python's `str(n)` for a natural number. */
  function NatToString(n: nat): (r: string)
    ensures |r| > 0
    decreases n
  {
    if n < 10 then [DigitChar(n)] else NatToString(n / 10) + [DigitChar(n % 10)]
  }

  /** `str(n)` is made of decimal digits. */
  lemma {:induction false} NatToStringDigits(n: nat)
    ensures AllDigits(NatToString(n))
    decreases n
  {
    if n >= 10 {
      NatToStringDigits(n / 10);
    }
  }

  /** Python's `str(n)` for an integer. */
  function IntToString(n: int): string
  {
    if n < 0 then "-" + NatToString(-n) else NatToString(n)
  }

  predicate AllDigits(s: string)
  {
    forall i :: 0 <= i < |s| ==> IsDigit(s[i])
  }

  function DigitsValue(s: string): nat
    requires AllDigits(s)
  {
    if s == [] then 0 else DigitsValue(s[..|s| - 1]) * 10 + DigitValue(s[|s| - 1])
  }

  /** The digits of an integer literal as `int()` accepts them: ASCII digits, with single
      underscores allowed between two digits. */
  predicate DigitGroups(s: string)
  {
    && |s| > 0 && IsDigit(s[0]) && IsDigit(s[|s| - 1])
    && (forall i :: 0 <= i < |s| ==> IsDigit(s[i]) || s[i] == '_')
    && (forall i :: 0 <= i < |s| - 1 ==> !(s[i] == '_' && s[i + 1] == '_'))
  }

  function RemoveUnderscores(s: string): string
  {
    if s == [] then [] else (if s[0] == '_' then [] else [s[0]]) + RemoveUnderscores(s[1..])
  }

  lemma RemoveUnderscoresDigits(s: string)
    requires forall i :: 0 <= i < |s| ==> IsDigit(s[i]) || s[i] == '_'
    ensures AllDigits(RemoveUnderscores(s))
  {
    if s != [] {
      RemoveUnderscoresDigits(s[1..]);
    }
  }

  lemma RemoveUnderscoresOfDigits(s: string)
    requires AllDigits(s)
    ensures RemoveUnderscores(s) == s
  {
    if s != [] {
      RemoveUnderscoresOfDigits(s[1..]);
    }
  }

  /** Python's `int(s)` on a string that has already been stripped: an optional sign and
      then digits; `None` where Python raises `ValueError`. */
  function ParseInt(s: string): Option<int>
  {
    if |s| > 0 && (s[0] == '-' || s[0] == '+') then
      var body := s[1..];
      if DigitGroups(body) then
        (RemoveUnderscoresDigits(body);
         var v: int := DigitsValue(RemoveUnderscores(body));
         Some(if s[0] == '-' then -v else v))
      else None
    else if DigitGroups(s) then
      (RemoveUnderscoresDigits(s);
       Some(DigitsValue(RemoveUnderscores(s))))
    else None
  }

  lemma {:induction false} DigitsValueOfNat(n: nat)
    ensures AllDigits(NatToString(n)) && DigitsValue(NatToString(n)) == n
    decreases n
  {
    NatToStringDigits(n);
    if n >= 10 {
      var s := NatToString(n);
      assert s[..|s| - 1] == NatToString(n / 10);
      DigitsValueOfNat(n / 10);
    }
  }

  /** A non-empty run of digits is a valid unsigned literal whose value is its digits'. */
  lemma ParseDigits(s: string)
    requires |s| > 0 && AllDigits(s)
    ensures DigitGroups(s)
    ensures ParseInt(s) == Some(DigitsValue(s))
  {
    RemoveUnderscoresOfDigits(s);
    assert IsDigit(s[0]) && IsDigit(s[|s| - 1]);
    assert !(s[0] == '-' || s[0] == '+');
    assert forall i :: 0 <= i < |s| ==> IsDigit(s[i]) || s[i] == '_';
    assert forall i :: 0 <= i < |s| - 1 ==> !(s[i] == '_' && s[i + 1] == '_');
  }

  /** Rendering an integer in decimal and parsing it back gives the integer. */
  lemma ParseIntRoundTrip(n: int)
    ensures ParseInt(IntToString(n)) == Some(n)
  {
    var m: nat := if n < 0 then -n else n;
    var digits := NatToString(m);
    DigitsValueOfNat(m);
    if n < 0 {
      var t := IntToString(n);
      assert t == "-" + digits;
      assert t[1..] == digits;
      ParseDigits(digits);
      RemoveUnderscoresOfDigits(digits);
    } else {
      ParseDigits(digits);
    }
  }

  lemma IntToStringInjective(a: int, b: int)
    requires IntToString(a) == IntToString(b)
    ensures a == b
  {
    ParseIntRoundTrip(a);
    ParseIntRoundTrip(b);
  }

  /** `n` in decimal, padded with leading zeros to at least `width` digits: Python's
      `f"{n:0{width}d}"`. */
  function ZeroPad(n: nat, width: nat): (r: string)
    ensures AllDigits(r)
  {
    var s := NatToString(n);
    NatToStringDigits(n);
    if |s| >= width then s else seq(width - |s|, _ => '0') + s
  }

  /** Python's `f"{n:,}"` for a natural number: digits in groups of three separated by
      commas. */
  function Thousands(n: nat): (r: string)
    decreases n
  {
    if n < 1000 then NatToString(n) else Thousands(n / 1000) + "," + ZeroPad(n % 1000, 3)
  }

  /** `s` with its commas removed. */
  function DropCommas(s: string): string
  {
    if s == [] then [] else (if s[0] == ',' then [] else [s[0]]) + DropCommas(s[1..])
  }

  lemma {:induction false} DropCommasConcat(a: string, b: string)
    ensures DropCommas(a + b) == DropCommas(a) + DropCommas(b)
  {
    if a != [] {
      assert (a + b)[0] == a[0] && (a + b)[1..] == a[1..] + b;
      DropCommasConcat(a[1..], b);
      var c := if a[0] == ',' then [] else [a[0]];
      assert DropCommas(a + b) == c + (DropCommas(a[1..]) + DropCommas(b));
      assert DropCommas(a) == c + DropCommas(a[1..]);
    } else {
      assert a + b == b;
    }
  }

  lemma {:induction false} DropCommasDigits(s: string)
    requires AllDigits(s)
    ensures DropCommas(s) == s
  {
    if s != [] {
      DropCommasDigits(s[1..]);
    }
  }

  /** Appending three digits: the decimal form of `a * 1000 + b` is that of `a` followed by
      `b` padded to three digits. */
  lemma NatToStringGroup(a: nat, b: nat)
    requires a >= 1 && b < 1000
    ensures NatToString(a * 1000 + b) == NatToString(a) + ZeroPad(b, 3)
  {
    var n := a * 1000 + b;
    var d2, d1, d0 := b / 100, (b / 10) % 10, b % 10;
    assert n / 10 == a * 100 + b / 10 && n % 10 == d0;
    assert n / 100 == a * 10 + d2 && (n / 10) / 10 == n / 100 && (n / 10) % 10 == d1;
    assert (n / 100) / 10 == a && (n / 100) % 10 == d2;
    assert NatToString(n / 100) == NatToString(a) + [DigitChar(d2)];
    assert NatToString(n / 10) == NatToString(n / 100) + [DigitChar(d1)];
    assert NatToString(n) == NatToString(n / 10) + [DigitChar(d0)];
    if b >= 100 {
      assert (b / 10) / 10 == d2 && (b / 10) % 10 == d1 && b / 10 >= 10;
      assert NatToString(b / 10) == [DigitChar(d2), DigitChar(d1)];
      assert NatToString(b) == [DigitChar(d2), DigitChar(d1), DigitChar(d0)];
    } else if b >= 10 {
      assert NatToString(b) == [DigitChar(d1), DigitChar(d0)];
      assert ZeroPad(b, 3) == ['0'] + NatToString(b);
    } else {
      assert NatToString(b) == [DigitChar(d0)];
      assert ZeroPad(b, 3) == ['0', '0'] + NatToString(b);
    }
  }

  /** The thousands separators are the only difference from `str(n)`: removing the commas
      gives the plain decimal form back. */
  lemma {:induction false} ThousandsDigits(n: nat)
    ensures DropCommas(Thousands(n)) == NatToString(n)
    decreases n
  {
    NatToStringDigits(n);
    if n < 1000 {
      DropCommasDigits(NatToString(n));
    } else {
      var head, tail := Thousands(n / 1000), ZeroPad(n % 1000, 3);
      ThousandsDigits(n / 1000);
      DropCommasConcat(head + ",", tail);
      DropCommasConcat(head, ",");
      assert DropCommas(",") == [];
      DropCommasDigits(tail);
      NatToStringGroup(n / 1000, n % 1000);
      assert n == (n / 1000) * 1000 + n % 1000;
    }
  }
}

/** The JSON string literals of Python's `json.dumps` with its default `ensure_ascii=True`:
    every character outside printable ASCII is written as `\uXXXX` (a surrogate pair above
    the Basic Multilingual Plane), and the reading of such a literal back. */
module Json {
  import opened Common

  function HexDigit(n: nat): (c: char)
    requires n < 16
    ensures '0' <= c <= '9' || 'a' <= c <= 'f'
  {
    if n < 10 then ('0' as int + n) as char else ('a' as int + n - 10) as char
  }

  function Pow16(k: nat): nat
  {
    if k == 0 then 1 else 16 * Pow16(k - 1)
  }

  /** `'{0:0kx}'.format(n)` for a number of at most `k` hex digits. */
  function HexDigits(n: nat, k: nat): (r: string)
    ensures |r| == k
    ensures forall j :: 0 <= j < |r| ==> '0' <= r[j] <= '9' || 'a' <= r[j] <= 'f'
  {
    if k == 0 then [] else HexDigits(n / 16, k - 1) + [HexDigit(n % 16)]
  }

  function Hex4(n: nat): string
    requires n < 0x10000
  {
    HexDigits(n, 4)
  }

  function HexValue(c: char): Option<nat>
  {
    if '0' <= c <= '9' then Some(c as int - '0' as int)
    else if 'a' <= c <= 'f' then Some(c as int - 'a' as int + 10)
    else if 'A' <= c <= 'F' then Some(c as int - 'A' as int + 10)
    else None
  }

  /** `int(s, 16)` for a string of hex digits of either case. */
  function HexDigitsValue(s: string): (r: Option<nat>)
    ensures r.Some? ==> r.value < Pow16(|s|)
  {
    if s == [] then Some(0)
    else
      var init, last := HexDigitsValue(s[..|s| - 1]), HexValue(s[|s| - 1]);
      if init.Some? && last.Some? then
        assert last.value < 16;
        Some(init.value * 16 + last.value)
      else None
  }

  function Hex4Value(s: string): (r: Option<nat>)
    requires |s| == 4
    ensures r.Some? ==> r.value < 0x10000
  {
    assert Pow16(4) == 0x10000;
    HexDigitsValue(s)
  }

  lemma HexDigitValue(n: nat)
    requires n < 16
    ensures HexValue(HexDigit(n)) == Some(n)
  {
  }

  /** Hex digits read back as the number they were written from. */
  lemma {:induction false} HexDigitsRoundTrip(n: nat, k: nat)
    requires n < Pow16(k)
    ensures HexDigitsValue(HexDigits(n, k)) == Some(n)
  {
    if k > 0 {
      var s := HexDigits(n, k);
      HexDigitsRoundTrip(n / 16, k - 1);
      HexDigitValue(n % 16);
      assert s[..|s| - 1] == HexDigits(n / 16, k - 1);
    }
  }

  lemma Hex4RoundTrip(n: nat)
    requires n < 0x10000
    ensures Hex4Value(Hex4(n)) == Some(n)
  {
    assert Pow16(4) == 0x10000;
    HexDigitsRoundTrip(n, 4);
  }

  const Backspace: char := '\U{0008}'
  const FormFeed: char := '\U{000C}'

  /** Printable ASCII, the characters written as they are (except `"` and `\`). */
  predicate Printable(c: char)
  {
    ' ' <= c <= '~'
  }

  /** A character of a string literal. */
  function EscapeChar(c: char): (r: string)
    ensures forall k :: 0 <= k < |r| ==> Printable(r[k])
    ensures |r| > 0
  {
    if c == '"' then "\\\""
    else if c == '\\' then "\\\\"
    else if c == '\n' then "\\n"
    else if c == '\r' then "\\r"
    else if c == '\t' then "\\t"
    else if c == Backspace then "\\b"
    else if c == FormFeed then "\\f"
    else if Printable(c) then [c]
    else if c as int < 0x10000 then "\\u" + Hex4(c as int)
    else
      var n := c as int - 0x10000;
      "\\u" + Hex4(0xD800 + n / 1024) + "\\u" + Hex4(0xDC00 + n % 1024)
  }

  /** The body of the string literal of `s`, without its quotes. */
  function Escape(s: string): (r: string)
    ensures forall k :: 0 <= k < |r| ==> Printable(r[k])
  {
    if s == [] then []
    else
      var head, tail := EscapeChar(s[0]), Escape(s[1..]);
      assert forall k :: |head| <= k < |head| + |tail| ==> (head + tail)[k] == tail[k - |head|];
      head + tail
  }

  /** `json.dumps(s)` for a string. */
  function Quote(s: string): string
  {
    "\"" + Escape(s) + "\""
  }

  function Cons(c: char, rest: Option<string>): Option<string>
  {
    if rest.Some? then Some([c] + rest.value) else None
  }

  /** The string the body of a literal stands for (`json.loads` of it between quotes):
      nothing for a raw quote or control character, a bad escape, or a lone surrogate. */
  function Unescape(s: string): Option<string>
    decreases |s|
  {
    if s == [] then Some([])
    else if s[0] == '"' || s[0] < ' ' then None
    else if s[0] != '\\' then Cons(s[0], Unescape(s[1..]))
    else if |s| < 2 then None
    else if s[1] == '"' || s[1] == '\\' || s[1] == '/' then Cons(s[1], Unescape(s[2..]))
    else if s[1] == 'b' then Cons(Backspace, Unescape(s[2..]))
    else if s[1] == 'f' then Cons(FormFeed, Unescape(s[2..]))
    else if s[1] == 'n' then Cons('\n', Unescape(s[2..]))
    else if s[1] == 'r' then Cons('\r', Unescape(s[2..]))
    else if s[1] == 't' then Cons('\t', Unescape(s[2..]))
    else if s[1] != 'u' || |s| < 6 then None
    else
      var v := Hex4Value(s[2..6]);
      if v.None? then None
      else if 0xD800 <= v.value < 0xDC00 then
        if |s| < 12 || s[6] != '\\' || s[7] != 'u' then None
        else
          var w := Hex4Value(s[8..12]);
          if w.None? || !(0xDC00 <= w.value < 0xE000) then None
          else Cons((0x10000 + (v.value - 0xD800) * 1024 + (w.value - 0xDC00)) as char, Unescape(s[12..]))
      else if 0xDC00 <= v.value < 0xE000 then None
      else Cons(v.value as char, Unescape(s[6..]))
  }

  /** A character outside the Basic Multilingual Plane, split into its surrogate pair and
      put back together. */
  lemma SurrogatePair(c: char)
    requires c as int >= 0x10000
    ensures var n := c as int - 0x10000;
      && 0xD800 <= 0xD800 + n / 1024 < 0xDC00 && 0xDC00 <= 0xDC00 + n % 1024 < 0xE000
      && (0x10000 + (0xD800 + n / 1024 - 0xD800) * 1024 + (0xDC00 + n % 1024 - 0xDC00)) as char == c
  {
    var n := c as int - 0x10000;
    assert n < 0x100000;
    assert n / 1024 * 1024 + n % 1024 == n;
  }

  lemma UnescapeShort(c: char, t: string)
    requires c == '"' || c == '\\' || c == '\n' || c == '\r' || c == '\t' || c == Backspace || c == FormFeed
    ensures Unescape(EscapeChar(c) + t) == Cons(c, Unescape(t))
  {
    var s := EscapeChar(c) + t;
    assert |EscapeChar(c)| == 2 && s[0] == '\\' && s[2..] == t;
  }

  lemma UnescapeBmp(c: char, t: string)
    requires !Printable(c) && c as int < 0x10000
    requires c != '\n' && c != '\r' && c != '\t' && c != Backspace && c != FormFeed
    ensures Unescape(EscapeChar(c) + t) == Cons(c, Unescape(t))
  {
    var s := EscapeChar(c) + t;
    Hex4RoundTrip(c as int);
    assert EscapeChar(c) == "\\u" + Hex4(c as int);
    assert s[0] == '\\' && s[1] == 'u' && s[2..6] == Hex4(c as int) && s[6..] == t;
  }

  /** A surrogate pair read as the character it encodes. */
  lemma UnescapeSurrogates(s: string, hi: nat, lo: nat)
    requires |s| >= 12 && s[0] == '\\' && s[1] == 'u' && s[6] == '\\' && s[7] == 'u'
    requires Hex4Value(s[2..6]) == Some(hi) && 0xD800 <= hi < 0xDC00
    requires Hex4Value(s[8..12]) == Some(lo) && 0xDC00 <= lo < 0xE000
    ensures Unescape(s) == Cons((0x10000 + (hi - 0xD800) * 1024 + (lo - 0xDC00)) as char, Unescape(s[12..]))
  {
  }

  lemma EscapeCharPair(c: char)
    requires c as int >= 0x10000
    ensures var n := c as int - 0x10000;
      0xD800 + n / 1024 < 0x10000 && 0xDC00 + n % 1024 < 0x10000
      && EscapeChar(c) == "\\u" + Hex4(0xD800 + n / 1024) + "\\u" + Hex4(0xDC00 + n % 1024)
  {
    SurrogatePair(c);
  }

  lemma PairSlices(a: string, b: string, t: string)
    requires |a| == 4 && |b| == 4
    ensures var s := "\\u" + a + "\\u" + b + t;
      && |s| >= 12 && s[0] == '\\' && s[1] == 'u' && s[6] == '\\' && s[7] == 'u'
      && s[2..6] == a && s[8..12] == b && s[12..] == t
  {
  }

  /** A written surrogate pair read back, whatever follows it. */
  lemma UnescapeWrittenPair(hi: nat, lo: nat, t: string)
    requires 0xD800 <= hi < 0xDC00 && 0xDC00 <= lo < 0xE000
    ensures Unescape("\\u" + Hex4(hi) + "\\u" + Hex4(lo) + t)
            == Cons((0x10000 + (hi - 0xD800) * 1024 + (lo - 0xDC00)) as char, Unescape(t))
  {
    Hex4RoundTrip(hi);
    Hex4RoundTrip(lo);
    PairSlices(Hex4(hi), Hex4(lo), t);
    UnescapeSurrogates("\\u" + Hex4(hi) + "\\u" + Hex4(lo) + t, hi, lo);
  }

  lemma UnescapePair(c: char, t: string)
    requires c as int >= 0x10000
    ensures Unescape(EscapeChar(c) + t) == Cons(c, Unescape(t))
  {
    var n := c as int - 0x10000;
    SurrogatePair(c);
    EscapeCharPair(c);
    UnescapeWrittenPair(0xD800 + n / 1024, 0xDC00 + n % 1024, t);
  }

  /** Reading a written character back, whatever follows it. */
  lemma UnescapeChar(c: char, t: string)
    ensures Unescape(EscapeChar(c) + t) == Cons(c, Unescape(t))
  {
    if c == '"' || c == '\\' || c == '\n' || c == '\r' || c == '\t' || c == Backspace || c == FormFeed {
      UnescapeShort(c, t);
    } else if Printable(c) {
      assert (EscapeChar(c) + t)[1..] == t;
    } else if c as int < 0x10000 {
      UnescapeBmp(c, t);
    } else {
      UnescapePair(c, t);
    }
  }

  /** The body of a literal gives back the string it was written from. */
  lemma {:induction false} UnescapeEscape(s: string)
    ensures Unescape(Escape(s)) == Some(s)
  {
    if s != [] {
      UnescapeEscape(s[1..]);
      UnescapeChar(s[0], Escape(s[1..]));
      assert [s[0]] + s[1..] == s;
    }
  }

  /** A literal is printable ASCII: it holds no line break. */
  lemma QuoteIsPrintable(s: string)
    ensures forall k :: 0 <= k < |Quote(s)| ==> Printable(Quote(s)[k])
  {
    var q := Quote(s);
    forall k | 0 <= k < |q| ensures Printable(q[k]) {
      if 0 < k < |q| - 1 {
        assert q[k] == Escape(s)[k - 1];
      }
    }
  }
}

/**
 * The few pieces of Python's string and number built-ins that BSAG
 * relies on: `str.strip`, `str.split`, `"".join`, `str.replace`,
 * `str.removesuffix`, string ordering, `str(int)` and `round`.
 */
module Text {

  /**
   * Python's `str.isspace`, which `str.strip`, `str.split()` and the
   * pattern class `\s` share: the ASCII controls from tab to carriage
   * return, the information separators 0x1C-0x1F, the space, and the
   * Unicode spaces and line breaks.
   */
  predicate IsSpace(c: char) {
    || '\t' <= c <= '\r'
    || '\U{1C}' <= c <= ' '
    || c == '\U{85}' || c == '\U{A0}' || c == '\U{1680}'
    || '\U{2000}' <= c <= '\U{200A}'
    || c == '\U{2028}' || c == '\U{2029}' || c == '\U{202F}' || c == '\U{205F}' || c == '\U{3000}'
  }

  predicate AllSpace(s: string) {
    forall i :: 0 <= i < |s| ==> IsSpace(s[i])
  }

  /** `str.lstrip()`: drops the leading whitespace. */
  function LStrip(s: string): (r: string)
    ensures |r| <= |s| && r == s[|s| - |r|..]
    ensures AllSpace(s[..|s| - |r|])
    ensures r != [] ==> !IsSpace(r[0])
    ensures AllSpace(s) ==> r == []
  {
    if s != [] && IsSpace(s[0]) then LStrip(s[1..]) else s
  }

  /** `str.rstrip()`: drops the trailing whitespace. */
  function RStrip(s: string): (r: string)
    ensures |r| <= |s| && r == s[..|r|]
    ensures AllSpace(s[|r|..])
    ensures r != [] ==> !IsSpace(r[|r| - 1])
  {
    if s != [] && IsSpace(s[|s| - 1]) then
      var r := RStrip(s[..|s| - 1]);
      assert s[|r|..] == s[..|s| - 1][|r|..] + [s[|s| - 1]];
      r
    else s
  }

  /** `str.strip()`: the text between the leading and the trailing whitespace. */
  function Strip(s: string): (r: string)
    ensures |r| <= |s|
    ensures r != [] ==> !IsSpace(r[0]) && !IsSpace(r[|r| - 1])
  {
    RStrip(LStrip(s))
  }

  lemma {:induction false} LStripPadded(pre: string, core: string)
    requires AllSpace(pre)
    requires core == [] || !IsSpace(core[0])
    ensures LStrip(pre + core) == core
  {
    if pre != [] {
      assert (pre + core)[1..] == pre[1..] + core;
      LStripPadded(pre[1..], core);
    }
  }

  lemma {:induction false} RStripPadded(core: string, post: string)
    requires AllSpace(post)
    requires core == [] || !IsSpace(core[|core| - 1])
    ensures RStrip(core + post) == core
  {
    if post != [] {
      assert (core + post)[..|core + post| - 1] == core + post[..|post| - 1];
      RStripPadded(core, post[..|post| - 1]);
    }
  }

  /**
   * Strip is characterised by its result: whitespace around a text that
   * neither starts nor ends with whitespace is exactly what it removes.
   */
  lemma StripPadded(pre: string, core: string, post: string)
    requires AllSpace(pre) && AllSpace(post)
    requires core != [] ==> !IsSpace(core[0]) && !IsSpace(core[|core| - 1])
    ensures Strip(pre + core + post) == core
  {
    if core == [] {
      assert pre + core + post == pre + post;
      assert AllSpace(pre + post);
    } else {
      assert pre + core + post == pre + (core + post);
      LStripPadded(pre, core + post);
      RStripPadded(core, post);
    }
  }

  /** Stripping twice is stripping once. */
  lemma StripIdempotent(s: string)
    ensures Strip(Strip(s)) == Strip(s)
  {
    StripClean(Strip(s));
  }

  /** A text that neither starts nor ends with whitespace is its own strip. */
  lemma StripClean(t: string)
    requires t != [] ==> !IsSpace(t[0]) && !IsSpace(t[|t| - 1])
    ensures Strip(t) == t
  {
    var none: string := [];
    assert AllSpace(none);
    assert none + t + none == t;
    StripPadded(none, t, none);
  }

  /** `s.split(sep)`: the chunks between separators, empty ones included. */
  function Split(s: string, sep: char): (r: seq<string>)
    ensures |r| >= 1
    ensures forall i :: 0 <= i < |r| ==> sep !in r[i]
  {
    if s == [] then [""]
    else
      var rest := Split(s[1..], sep);
      if s[0] == sep then [""] + rest else [[s[0]] + rest[0]] + rest[1..]
  }

  /** `sep.join(chunks)`. */
  function JoinWith(chunks: seq<string>, sep: char): string
    requires |chunks| >= 1
  {
    if |chunks| == 1 then chunks[0] else chunks[0] + [sep] + JoinWith(chunks[1..], sep)
  }

  /** Joining the chunks of a split gives back the original text. */
  lemma {:induction false} JoinSplit(s: string, sep: char)
    ensures JoinWith(Split(s, sep), sep) == s
  {
    if s != [] {
      var rest := Split(s[1..], sep);
      JoinSplit(s[1..], sep);
      if s[0] == sep {
        assert Split(s, sep)[1..] == rest;
      } else {
        var r := Split(s, sep);
        if |rest| == 1 {
          assert r == [[s[0]] + rest[0]];
        } else {
          assert r[1..] == rest[1..];
          assert JoinWith(rest, sep) == rest[0] + [sep] + JoinWith(rest[1..], sep);
        }
      }
    }
  }

  lemma {:induction false} SplitPrefix(a: string, t: string, sep: char)
    requires sep !in a
    ensures Split(a + t, sep) == [a + Split(t, sep)[0]] + Split(t, sep)[1..]
  {
    var st := Split(t, sep);
    if a != [] {
      assert (a + t)[1..] == a[1..] + t;
      SplitPrefix(a[1..], t, sep);
      var rest := Split(a[1..] + t, sep);
      assert rest[0] == a[1..] + st[0] && rest[1..] == st[1..];
      assert [a[0]] + (a[1..] + st[0]) == a + st[0];
    } else {
      assert a + t == t && a + st[0] == st[0];
      assert st == [st[0]] + st[1..];
    }
  }

  /** Splitting a join of separator-free chunks gives back the chunks. */
  lemma {:induction false} SplitJoin(chunks: seq<string>, sep: char)
    requires |chunks| >= 1
    requires forall i :: 0 <= i < |chunks| ==> sep !in chunks[i]
    ensures Split(JoinWith(chunks, sep), sep) == chunks
  {
    if |chunks| == 1 {
      SplitPrefix(chunks[0], "", sep);
      assert chunks[0] + "" == chunks[0];
    } else {
      var tail := JoinWith(chunks[1..], sep);
      SplitJoin(chunks[1..], sep);
      assert chunks[0] + [sep] + tail == chunks[0] + ([sep] + tail);
      SplitPrefix(chunks[0], [sep] + tail, sep);
      assert ([sep] + tail)[1..] == tail;
      assert Split([sep] + tail, sep) == [""] + chunks[1..];
      assert chunks[0] + "" == chunks[0];
      assert chunks == [chunks[0]] + chunks[1..];
    }
  }

  /** `"".join(chunks)`. */
  function Concat(chunks: seq<string>): (r: string)
    ensures |chunks| == 0 ==> r == ""
  {
    if chunks == [] then "" else chunks[0] + Concat(chunks[1..])
  }

  /** The longest prefix of `s` without whitespace. */
  function TakeWord(s: string): (w: string)
    ensures |w| <= |s| && w == s[..|w|]
    ensures forall i :: 0 <= i < |w| ==> !IsSpace(w[i])
    ensures |w| < |s| ==> IsSpace(s[|w|])
  {
    if s == [] || IsSpace(s[0]) then "" else [s[0]] + TakeWord(s[1..])
  }

  /** `s.split()`: the maximal runs of non-whitespace characters. */
  function Words(s: string): (r: seq<string>)
    ensures |r| <= |s|
    decreases |s|
  {
    if s == [] then []
    else if IsSpace(s[0]) then Words(s[1..])
    else
      var w := TakeWord(s);
      [w] + Words(s[|w|..])
  }

  /** A word followed by whitespace, or by nothing, is taken whole. */
  lemma {:induction false} TakeWordPrefix(w: string, s: string)
    requires forall i :: 0 <= i < |w| ==> !IsSpace(w[i])
    requires s == [] || IsSpace(s[0])
    ensures TakeWord(w + s) == w
  {
    if w == [] {
      assert w + s == s;
    } else {
      assert (w + s)[1..] == w[1..] + s;
      TakeWordPrefix(w[1..], s);
    }
  }

  /** Splitting words joined by single spaces gives back the words. */
  lemma {:induction false} WordsJoin(ws: seq<string>)
    requires |ws| >= 1
    requires forall i :: 0 <= i < |ws| ==> ws[i] != [] && forall j :: 0 <= j < |ws[i]| ==> !IsSpace(ws[i][j])
    ensures Words(JoinWith(ws, ' ')) == ws
  {
    var w := ws[0];
    if |ws| == 1 {
      TakeWordPrefix(w, "");
      assert w + "" == w && w[|w|..] == "";
    } else {
      var tail := JoinWith(ws[1..], ' ');
      var s := w + ([' '] + tail);
      assert JoinWith(ws, ' ') == s;
      TakeWordPrefix(w, [' '] + tail);
      assert s[|w|..] == [' '] + tail;
      assert ([' '] + tail)[1..] == tail;
      WordsJoin(ws[1..]);
      assert ws == [w] + ws[1..];
    }
  }

  function DigitChar(d: nat): (c: char)
    requires d < 10
    ensures '0' <= c <= '9'
  {
    "0123456789"[d]
  }

  /** `str(n)` for a natural number. */
  function NatToString(n: nat): (r: string)
    ensures |r| >= 1
    ensures forall i :: 0 <= i < |r| ==> '0' <= r[i] <= '9'
  {
    if n < 10 then [DigitChar(n)] else NatToString(n / 10) + [DigitChar(n % 10)]
  }

  /** `str(n)` for any integer: a minus sign before the digits of a negative one. */
  function IntToString(n: int): (r: string)
    ensures |r| >= 1
    ensures r[0] == '-' <==> n < 0
  {
    if n < 0 then "-" + NatToString(-n) else NatToString(n)
  }

  /** `s.replace(from, to)` for single characters. */
  function ReplaceChar(s: string, from: char, to: char): (r: string)
    ensures |r| == |s|
    ensures to != from ==> from !in r
  {
    if s == [] then "" else [if s[0] == from then to else s[0]] + ReplaceChar(s[1..], from, to)
  }

  /** `s.removesuffix(suffix)`. */
  function RemoveSuffix(s: string, suffix: string): (r: string)
    ensures r + suffix == s || r == s
    ensures |r| <= |s|
  {
    if |suffix| <= |s| && s[|s| - |suffix|..] == suffix then s[..|s| - |suffix|] else s
  }

  /** Python's ordering of strings: lexicographic by code point. */
  predicate LexLeq(a: string, b: string) {
    a == [] || (b != [] && (a[0] < b[0] || (a[0] == b[0] && LexLeq(a[1..], b[1..]))))
  }

  lemma {:induction false} LexLeqTotal(a: string, b: string)
    ensures LexLeq(a, b) || LexLeq(b, a)
  {
    if a != [] && b != [] && a[0] == b[0] {
      LexLeqTotal(a[1..], b[1..]);
    }
  }

  lemma {:induction false} LexLeqTransitive(a: string, b: string, c: string)
    requires LexLeq(a, b) && LexLeq(b, c)
    ensures LexLeq(a, c)
  {
    if a != [] && a[0] == b[0] && b[0] == c[0] {
      LexLeqTransitive(a[1..], b[1..], c[1..]);
    }
  }

  /** `x` times 10 to the power `d`, for any integer `d`, one factor of ten at a time. */
  function Shift(x: real, d: int): real
    decreases if d >= 0 then d else -d
  {
    if d == 0 then x else if d > 0 then Shift(x, d - 1) * 10.0 else Shift(x, d + 1) / 10.0
  }

  /** Shifting by `a` and then by `b` shifts by `a + b`. */
  lemma {:induction false} ShiftAdd(x: real, a: int, b: int)
    ensures Shift(Shift(x, a), b) == Shift(x, a + b)
    decreases if b >= 0 then b else -b
  {
    if b > 0 {
      ShiftAdd(x, a, b - 1);
      if a + b <= 0 {
        assert Shift(x, a + b - 1) == Shift(x, a + b) / 10.0;
      }
    } else if b < 0 {
      ShiftAdd(x, a, b + 1);
      if a + b >= 0 {
        assert Shift(x, a + b + 1) == Shift(x, a + b) * 10.0;
      }
    }
  }

  /** Zero stays zero whatever the shift. */
  lemma {:induction false} ShiftZero(d: int)
    ensures Shift(0.0, d) == 0.0
    decreases if d >= 0 then d else -d
  {
    if d > 0 {
      ShiftZero(d - 1);
    } else if d < 0 {
      ShiftZero(d + 1);
    }
  }

  /** The integer nearest to `x`, ties going to the even neighbour. */
  function RoundHalfEven(x: real): (n: int)
    ensures -0.5 <= n as real - x <= 0.5
    ensures n as real - x == 0.5 || n as real - x == -0.5 ==> n % 2 == 0
  {
    var f := x.Floor;
    var frac := x - f as real;
    if frac < 0.5 then f else if frac > 0.5 then f + 1 else if f % 2 == 0 then f else f + 1
  }

  lemma RoundHalfEvenOfInt(n: int)
    ensures RoundHalfEven(n as real) == n
  {
    assert (n as real).Floor == n;
  }

  /**
   * Python's `round(x, digits)` taken on exact reals: the input is scaled
   * by 10^digits, rounded to the nearest integer (ties to even), and scaled back.
   */
  function Round(x: real, digits: int): real {
    Shift(RoundHalfEven(Shift(x, digits)) as real, -digits)
  }

  /** Scaled by 10^digits, the rounded value is the integer nearest to the scaled input. */
  lemma RoundScaled(x: real, digits: int)
    ensures Shift(Round(x, digits), digits) == RoundHalfEven(Shift(x, digits)) as real
  {
    ShiftAdd(RoundHalfEven(Shift(x, digits)) as real, -digits, digits);
  }

  /** A value already on the grid of 10^-digits is left alone. */
  lemma RoundIdempotent(x: real, digits: int)
    ensures Round(Round(x, digits), digits) == Round(x, digits)
  {
    var n := RoundHalfEven(Shift(x, digits));
    RoundScaled(x, digits);
    RoundHalfEvenOfInt(n);
  }

  /** Zero rounds to zero. */
  lemma RoundZero(digits: int)
    ensures Round(0.0, digits) == 0.0
  {
    ShiftZero(digits);
    RoundHalfEvenOfInt(0);
    ShiftZero(-digits);
  }

  /** The rounding example `round(2.34567, 3) == 2.346`. */
  lemma RoundExample()
    ensures Round(2.34567, 3) == 2.346
  {
    assert Shift(2.34567, 1) == 23.4567;
    assert Shift(2.34567, 2) == 234.567;
    assert Shift(2.34567, 3) == 2345.67;
    assert RoundHalfEven(2345.67) == 2346;
    assert Shift(2346.0, -1) == 234.6;
    assert Shift(2346.0, -2) == 23.46;
  }
}

/** String helpers standing in for the JavaScript built-ins the core uses:
    template-literal rendering of integers, `toLowerCase`/`toUpperCase` (ASCII),
    the `<` order on strings, `trim`, line joining, and the decimal renderings of
    `Number.prototype.toFixed(2)` and ethers' `formatUnits`. */
module Text {

  predicate IsDigit(c: char)
  {
    '0' <= c <= '9'
  }

  function Digit(d: nat): (c: char)
    requires d < 10
    ensures IsDigit(c)
  {
    (('0' as int) + d) as char
  }

  function DigitValue(c: char): (d: nat)
    requires IsDigit(c)
    ensures d < 10
  {
    (c as int) - ('0' as int)
  }

  /** `${n}` for a non-negative integer: decimal digits without leading zeros. */
  function NatToString(n: nat): (s: string)
    ensures |s| >= 1
    ensures forall i :: 0 <= i < |s| ==> IsDigit(s[i])
    ensures s[0] == '0' ==> n == 0
    decreases n
  {
    if n < 10 then [Digit(n)] else NatToString(n / 10) + [Digit(n % 10)]
  }

  /** Reads a string of decimal digits back as a number. */
  function ParseNat(s: string): nat
    requires forall i :: 0 <= i < |s| ==> IsDigit(s[i])
    decreases |s|
  {
    if s == [] then 0 else ParseNat(s[..|s| - 1]) * 10 + DigitValue(s[|s| - 1])
  }

  /** Rendering a number loses nothing: it can be read back. */
  lemma {:induction false} ParseNatToString(n: nat)
    ensures ParseNat(NatToString(n)) == n
    decreases n
  {
    var s := NatToString(n);
    if n >= 10 {
      var p := NatToString(n / 10);
      assert s == p + [Digit(n % 10)];
      assert s[..|s| - 1] == p;
      ParseNatToString(n / 10);
    }
  }

  /** `${i}` for any integer. */
  function IntToString(i: int): (s: string)
    ensures |s| >= 1
    ensures s[0] == '-' <==> i < 0
  {
    if i < 0 then "-" + NatToString(-i) else NatToString(i)
  }

  function LowerChar(c: char): char
  {
    if 'A' <= c <= 'Z' then ((c as int) + 32) as char else c
  }

  function UpperChar(c: char): char
  {
    if 'a' <= c <= 'z' then ((c as int) - 32) as char else c
  }

  /** `s.toLowerCase()` on the ASCII letters. */
  function ToLower(s: string): (r: string)
    ensures |r| == |s|
    ensures forall i :: 0 <= i < |s| ==> r[i] == LowerChar(s[i])
  {
    seq(|s|, i requires 0 <= i < |s| => LowerChar(s[i]))
  }

  /** `s.toUpperCase()` on the ASCII letters. */
  function ToUpper(s: string): (r: string)
    ensures |r| == |s|
    ensures forall i :: 0 <= i < |s| ==> r[i] == UpperChar(s[i])
  {
    seq(|s|, i requires 0 <= i < |s| => UpperChar(s[i]))
  }

  /** JavaScript's `a < b` on strings: lexicographic comparison of characters,
      a proper prefix being smaller. */
  predicate StrLess(a: string, b: string)
    decreases |a|
  {
    if |a| == 0 then |b| > 0
    else if |b| == 0 then false
    else if a[0] != b[0] then a[0] < b[0]
    else StrLess(a[1..], b[1..])
  }

  predicate StrLessEq(a: string, b: string)
  {
    StrLess(a, b) || a == b
  }

  lemma {:induction false} StrLessTrichotomy(a: string, b: string)
    ensures a == b || StrLess(a, b) || StrLess(b, a)
    decreases |a|
  {
    if |a| > 0 && |b| > 0 && a[0] == b[0] {
      StrLessTrichotomy(a[1..], b[1..]);
      if a[1..] == b[1..] {
        assert a == [a[0]] + a[1..];
        assert b == [b[0]] + b[1..];
      }
    }
  }

  lemma {:induction false} StrLessAsymmetric(a: string, b: string)
    ensures !(StrLess(a, b) && StrLess(b, a))
    decreases |a|
  {
    if |a| > 0 && |b| > 0 && a[0] == b[0] {
      StrLessAsymmetric(a[1..], b[1..]);
    }
  }

  /** `<` on strings is a strict total order: `a < b` fails exactly when `b <= a`. */
  lemma StrOrder(a: string, b: string)
    ensures !StrLess(a, b) <==> StrLessEq(b, a)
  {
    StrLessTrichotomy(a, b);
    StrLessAsymmetric(a, b);
    StrLessAsymmetric(a, a);
  }

  /** The white-space characters `String.prototype.trim` removes (the ASCII ones,
      no-break space and the byte-order mark). */
  predicate IsWhite(c: char)
  {
    c == ' ' || c == '\t' || c == '\n' || c == '\r' || c == '\U{0B}' || c == '\U{0C}'
    || c == '\U{A0}' || c == '\U{FEFF}'
  }

  function TrimStart(s: string): (r: string)
    ensures r == "" || !IsWhite(r[0])
    decreases |s|
  {
    if |s| > 0 && IsWhite(s[0]) then TrimStart(s[1..]) else s
  }

  function TrimEnd(s: string): (r: string)
    ensures r == "" || !IsWhite(r[|r| - 1])
    ensures |r| <= |s| && r == s[..|r|]
    decreases |s|
  {
    if |s| > 0 && IsWhite(s[|s| - 1]) then TrimEnd(s[..|s| - 1]) else s
  }

  /** `s.trim()`. */
  function Trim(s: string): string
  {
    TrimEnd(TrimStart(s))
  }

  /** Trimming leaves a word alone and drops one space after it. */
  lemma TrimWord(w: string)
    requires w != "" && !IsWhite(w[0]) && !IsWhite(w[|w| - 1])
    ensures Trim(w) == w
    ensures Trim(w + " ") == w
  {
    assert TrimStart(w) == w;
    assert TrimEnd(w) == w;
    var ws := w + " ";
    assert ws[0] == w[0];
    assert TrimStart(ws) == ws;
    assert ws[..|ws| - 1] == w;
  }

  /** `words.join(sep)`. */
  function JoinWith(sep: string, words: seq<string>): string
    decreases |words|
  {
    if |words| == 0 then ""
    else if |words| == 1 then words[0]
    else words[0] + sep + JoinWith(sep, words[1..])
  }

  /** A word trimming leaves alone: non-empty, no white space at either end. */
  predicate Word(w: string)
  {
    w != "" && !IsWhite(w[0]) && !IsWhite(w[|w| - 1])
  }

  /** Each word followed by one space, as `result += word + " "` builds it. */
  function Spaces(ws: seq<string>): string
    decreases |ws|
  {
    if ws == [] then "" else ws[0] + " " + Spaces(ws[1..])
  }

  /** Words each followed by a space, then one more word: the words joined by spaces. */
  lemma {:induction false} SpacesThenWord(ws: seq<string>, last: string)
    ensures Spaces(ws) + last == JoinWith(" ", ws + [last])
    decreases |ws|
  {
    if ws == [] {
      assert ws + [last] == [last];
    } else {
      SpacesThenWord(ws[1..], last);
      assert (ws + [last])[1..] == ws[1..] + [last];
      assert (ws + [last])[0] == ws[0];
    }
  }

  /** Words each followed by a space: the words joined by spaces, and a trailing space. */
  lemma {:induction false} SpacesTrailing(ws: seq<string>)
    requires ws != []
    ensures Spaces(ws) == JoinWith(" ", ws) + " "
    decreases |ws|
  {
    if |ws| > 1 {
      SpacesTrailing(ws[1..]);
    } else {
      assert ws[1..] == [];
    }
  }

  /** Words joined by spaces form one word for trimming. */
  lemma {:induction false} JoinedWord(ws: seq<string>)
    requires ws != [] && forall i :: 0 <= i < |ws| ==> Word(ws[i])
    ensures Word(JoinWith(" ", ws))
    decreases |ws|
  {
    if |ws| > 1 {
      JoinedWord(ws[1..]);
      var t := JoinWith(" ", ws[1..]);
      var j := ws[0] + " " + t;
      assert j[0] == ws[0][0];
      assert j[|j| - 1] == t[|t| - 1];
    }
  }

  /** A message built line by line with `message += line + "\n"`. */
  function JoinLines(lines: seq<string>): string
    decreases |lines|
  {
    if lines == [] then "" else lines[0] + "\n" + JoinLines(lines[1..])
  }

  lemma {:induction false} JoinLinesAppend(a: seq<string>, b: seq<string>)
    ensures JoinLines(a + b) == JoinLines(a) + JoinLines(b)
    decreases |a|
  {
    if a != [] {
      assert (a + b)[1..] == a[1..] + b;
      JoinLinesAppend(a[1..], b);
    } else {
      assert a + b == b;
    }
  }

  /** A line beginning with `tag`, in the sense of `line.startsWith(tag)`. */
  predicate StartsWith(line: string, tag: string)
  {
    |tag| <= |line| && line[..|tag|] == tag
  }

  /** Two labels neither of which begins the other cannot both begin one line. */
  lemma LabelsExclusive(a: string, b: string, rest: string)
    requires !StartsWith(a, b) && !StartsWith(b, a)
    ensures !StartsWith(b + rest, a)
  {
    if |a| <= |b| {
      assert (b + rest)[..|a|] == b[..|a|];
    } else if |a| <= |b| + |rest| {
      assert (b + rest)[..|a|][..|b|] == b;
    }
  }

  function IndexOfChar(s: string, c: char): (i: nat)
    ensures i <= |s|
    ensures i < |s| ==> s[i] == c
    ensures forall j :: 0 <= j < i ==> s[j] != c
    decreases |s|
  {
    if s == [] then 0 else if s[0] == c then 0 else 1 + IndexOfChar(s[1..], c)
  }

  /** The lines of a text: the pieces ended by "\n", and an unterminated last piece. */
  function SplitLines(s: string): seq<string>
    decreases |s|
  {
    if s == "" then []
    else
      var i := IndexOfChar(s, '\n');
      if i == |s| then [s] else [s[..i]] + SplitLines(s[i + 1..])
  }

  /** A text without line breaks. */
  predicate OneLine(s: string)
  {
    '\n' !in s
  }

  lemma DigitsOneLine(s: string)
    requires forall i :: 0 <= i < |s| ==> IsDigit(s[i])
    ensures OneLine(s)
  {
  }

  predicate AllOneLine(lines: seq<string>)
  {
    forall k :: 0 <= k < |lines| ==> OneLine(lines[k])
  }

  lemma AllOneLineAppend(a: seq<string>, b: seq<string>)
    requires AllOneLine(a) && AllOneLine(b)
    ensures AllOneLine(a + b)
  {
    forall k | 0 <= k < |a + b| ensures OneLine((a + b)[k]) {
      if k >= |a| {
        assert (a + b)[k] == b[k - |a|];
      }
    }
  }

  /** Splitting a text at its first line break. */
  lemma SplitFirstLine(head: string, rest: string)
    requires OneLine(head)
    ensures SplitLines(head + "\n" + rest) == [head] + SplitLines(rest)
  {
    var s := head + "\n" + rest;
    assert s[|head|] == '\n';
    assert forall j :: 0 <= j < |head| ==> s[j] == head[j];
    var i := IndexOfChar(s, '\n');
    assert i == |head|;
    assert s[..i] == head;
    assert s[i + 1..] == rest;
  }

  /** A text built line by line splits back into exactly those lines. */
  lemma {:induction false} SplitJoinLines(lines: seq<string>)
    requires AllOneLine(lines)
    ensures SplitLines(JoinLines(lines)) == lines
    decreases |lines|
  {
    if lines != [] {
      assert JoinLines(lines) == lines[0] + "\n" + JoinLines(lines[1..]);
      SplitFirstLine(lines[0], JoinLines(lines[1..]));
      SplitJoinLines(lines[1..]);
    }
  }

  function Pow10(k: nat): (p: nat)
    ensures p >= 1
  {
    if k == 0 then 1 else 10 * Pow10(k - 1)
  }

  function PadLeft(s: string, width: nat, c: char): (r: string)
    ensures |r| == if |s| < width then width else |s|
    decreases width - |s|
  {
    if |s| >= width then s else PadLeft([c] + s, width, c)
  }

  predicate AllDigits(s: string)
  {
    forall i :: 0 <= i < |s| ==> IsDigit(s[i])
  }

  lemma {:induction false} PadLeftDigits(s: string, width: nat)
    requires AllDigits(s)
    ensures AllDigits(PadLeft(s, width, '0'))
    decreases width - |s|
  {
    if |s| < width {
      var t := ['0'] + s;
      assert AllDigits(t) by {
        assert forall i :: 1 <= i < |t| ==> t[i] == s[i - 1];
      }
      PadLeftDigits(t, width);
    }
  }

  function StripTrailingZeros(s: string): string
    decreases |s|
  {
    if |s| > 0 && s[|s| - 1] == '0' then StripTrailingZeros(s[..|s| - 1]) else s
  }

  /** The whole part of u / 10^decimals. */
  function WholePart(u: nat, decimals: nat): nat
  {
    Quotient(u, Pow10(decimals))
  }

  function Quotient(a: nat, b: nat): (q: nat)
    requires b > 0
    ensures q * b <= a < (q + 1) * b
  {
    a / b
  }

  function Remainder(a: nat, b: nat): (r: nat)
    requires b > 0
    ensures r < b && a == Quotient(a, b) * b + r
  {
    a - Quotient(a, b) * b
  }

  /** The fraction digits of u / 10^decimals, without trailing zeros. */
  function FractionDigits(u: nat, decimals: nat): string
  {
    var p := Pow10(decimals);
    var r: nat := u % p;
    StripTrailingZeros(PadLeft(NatToString(r), decimals, '0'))
  }

  /** ethers' `formatUnits(u, decimals)`: the whole part, ".", and the fraction
      without trailing zeros but with at least one digit. */
  function FormatUnits(u: nat, decimals: nat): string
  {
    var frac := FractionDigits(u, decimals);
    NatToString(WholePart(u, decimals)) + "." + (if frac == "" then "0" else frac)
  }

  /** JavaScript's rendering of a number held as u / 10^decimals: like
      `FormatUnits`, but a whole number has no fraction part. */
  function DecimalText(u: nat, decimals: nat): string
  {
    var frac := FractionDigits(u, decimals);
    NatToString(WholePart(u, decimals)) + (if frac == "" then "" else "." + frac)
  }

  /** The units of 10^-k that `(p / q).toFixed(k)` shows: p / q rounded half up
      to k decimal places. */
  function Rounded(p: nat, q: nat, k: nat): (n: nat)
    requires q > 0
    ensures 2 * q * n <= 2 * Pow10(k) * p + q < 2 * q * (n + 1)
  {
    (2 * Pow10(k) * p + q) / (2 * q)
  }

  /** `(p / q).toFixed(k)` for a non-negative ratio and k >= 1. */
  function ToFixed(p: nat, q: nat, k: nat): string
    requires q > 0 && k >= 1
  {
    var n := Rounded(p, q, k);
    NatToString(Quotient(n, Pow10(k))) + "." + PadLeft(NatToString(Remainder(n, Pow10(k))), k, '0')
  }

  lemma {:induction false} NatToStringLength(m: nat, k: nat)
    requires k >= 1 && m < Pow10(k)
    ensures |NatToString(m)| <= k
    decreases m
  {
    if m >= 10 {
      assert Pow10(k) == 10 * Pow10(k - 1);
      assert m / 10 < Pow10(k - 1);
      NatToStringLength(m / 10, k - 1);
    }
  }

  lemma {:induction false} ParseLeadingZero(s: string)
    requires AllDigits(s)
    ensures AllDigits(['0'] + s) && ParseNat(['0'] + s) == ParseNat(s)
    decreases |s|
  {
    var t := ['0'] + s;
    assert AllDigits(t) by {
      assert forall i :: 1 <= i < |t| ==> t[i] == s[i - 1];
    }
    if s != [] {
      assert t[..|t| - 1] == ['0'] + s[..|s| - 1];
      ParseLeadingZero(s[..|s| - 1]);
    } else {
      assert t[..|t| - 1] == [];
    }
  }

  lemma {:induction false} ParsePadLeft(s: string, width: nat)
    requires AllDigits(s)
    ensures AllDigits(PadLeft(s, width, '0'))
    ensures ParseNat(PadLeft(s, width, '0')) == ParseNat(s)
    decreases width - |s|
  {
    PadLeftDigits(s, width);
    if |s| < width {
      ParseLeadingZero(s);
      ParsePadLeft(['0'] + s, width);
    }
  }

  /** `toFixed(k)` shows the rounded value exactly: a run of digits, a point and
      k digits, which read back as the whole units and the k-place fraction. */
  lemma ToFixedReadsBack(p: nat, q: nat, k: nat)
    requires q > 0 && k >= 1
    ensures var t := ToFixed(p, q, k);
            && |t| >= k + 2 && t[|t| - k - 1] == '.'
            && AllDigits(t[..|t| - k - 1]) && AllDigits(t[|t| - k..])
            && ParseNat(t[..|t| - k - 1]) * Pow10(k) + ParseNat(t[|t| - k..]) == Rounded(p, q, k)
  {
    var n := Rounded(p, q, k);
    var w, r := Quotient(n, Pow10(k)), Remainder(n, Pow10(k));
    var whole := NatToString(w);
    var digits := NatToString(r);
    var frac := PadLeft(digits, k, '0');
    NatToStringLength(r, k);
    ParsePadLeft(digits, k);
    ParseNatToString(w);
    ParseNatToString(r);
    assert ToFixed(p, q, k) == whole + "." + frac;
    PointSplit(whole, frac);
  }

  /** Digits, a point and more digits split back at the point. */
  lemma PointSplit(whole: string, frac: string)
    ensures var t := whole + "." + frac;
            && |t| == |whole| + |frac| + 1 && t[|whole|] == '.'
            && t[..|t| - |frac| - 1] == whole && t[|t| - |frac|..] == frac
  {
    var t := whole + "." + frac;
    assert t[..|whole|] == whole;
    assert t[|whole| + 1..] == frac;
  }
}

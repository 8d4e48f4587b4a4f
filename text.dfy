/** String operations of the JavaScript runtime that the application relies on, on `seq<char>`:
    decimal rendering of integers, `padStart(2, '0')`, ASCII `toLowerCase`/`toUpperCase`,
    `includes`, `trim`, `split` on one character and `join`. */
module Text {

  // ---------------------------------------------------------------------------
  // Decimal numbers

  predicate IsDigit(c: char) { '0' <= c <= '9' }

  predicate AllDigits(s: string) { forall i :: 0 <= i < |s| ==> IsDigit(s[i]) }

  function DigitChar(d: nat): (c: char)
    requires d < 10
    ensures IsDigit(c) && c as int - '0' as int == d
  {
    (d + '0' as int) as char
  }

  function DigitValue(c: char): (d: nat)
    requires IsDigit(c)
    ensures d < 10
  {
    c as int - '0' as int
  }

  /** `String(n)` for a non-negative integer: decimal digits, no leading zero. */
  function NatToString(n: nat): (s: string)
    ensures |s| >= 1 && AllDigits(s)
    ensures |s| > 1 ==> s[0] != '0'
    ensures n < 10 <==> |s| == 1
  {
    if n < 10 then [DigitChar(n)] else NatToString(n / 10) + [DigitChar(n % 10)]
  }

  /** `String(n)` for any integer. */
  function IntToString(n: int): string
  {
    if n < 0 then "-" + NatToString(-n) else NatToString(n)
  }

  /** The value of a string of decimal digits (`Number(s)` on such a string). */
  function DigitsValue(s: string): nat
    requires AllDigits(s)
  {
    if s == [] then 0 else DigitsValue(s[..|s| - 1]) * 10 + DigitValue(s[|s| - 1])
  }

  /** Reading back a rendered number gives the number. */
  lemma {:induction false} DigitsValueOfNatToString(n: nat)
    ensures DigitsValue(NatToString(n)) == n
  {
    if n >= 10 {
      var s := NatToString(n);
      assert s[..|s| - 1] == NatToString(n / 10);
      DigitsValueOfNatToString(n / 10);
    }
  }

  /** `String(n).padStart(2, '0')`. */
  function Pad2(n: nat): (s: string)
    ensures n < 100 ==> |s| == 2
    ensures n < 100 ==> AllDigits(s) && DigitsValue(s) == n
  {
    if n < 10 then
      DigitsValueOfNatToString(n);
      assert ("0" + NatToString(n))[..1] == "0";
      "0" + NatToString(n)
    else
      DigitsValueOfNatToString(n);
      NatToString(n)
  }

  /** The two characters of `Pad2(n)` are the tens and the units digit. */
  lemma Pad2Digits(n: nat)
    requires n < 100
    ensures Pad2(n) == [DigitChar(n / 10), DigitChar(n % 10)]
  {
    if n >= 10 {
      assert NatToString(n / 10) == [DigitChar(n / 10)];
    }
  }

  /** JavaScript's `<` on strings: lexicographic order of the characters. */
  predicate StringLess(a: string, b: string)
  {
    if a == [] then b != []
    else if b == [] then false
    else if a[0] != b[0] then a[0] < b[0]
    else StringLess(a[1..], b[1..])
  }

  /** `HH:MM` from an hour and a minute. */
  function TimeText(h: nat, m: nat): string
  {
    Pad2(h) + ":" + Pad2(m)
  }

  /** Comparing two-digit numbers digit by digit is comparing the numbers. */
  lemma TwoDigitOrder(x: nat, y: nat)
    requires x < 100 && y < 100
    ensures x < y <==> x / 10 < y / 10 || (x / 10 == y / 10 && x % 10 < y % 10)
    ensures x == y <==> x / 10 == y / 10 && x % 10 == y % 10
  {
  }

  /** Digit characters are ordered as their values. */
  lemma DigitCharOrder(d: nat, e: nat)
    requires d < 10 && e < 10
    ensures DigitChar(d) < DigitChar(e) <==> d < e
    ensures DigitChar(d) == DigitChar(e) <==> d == e
  {
  }

  /** String order on two `dd:dd` shapes compares the digits left to right. */
  lemma ClockShapeLess(a0: char, a1: char, a3: char, a4: char, b0: char, b1: char, b3: char, b4: char)
    ensures StringLess([a0, a1, ':', a3, a4], [b0, b1, ':', b3, b4]) <==>
      a0 < b0 || (a0 == b0 && (a1 < b1 || (a1 == b1 && (a3 < b3 || (a3 == b3 && a4 < b4)))))
  {
    var a, b := [a0, a1, ':', a3, a4], [b0, b1, ':', b3, b4];
    var p, q := [a4], [b4];
    assert StringLess(p, q) <==> a4 < b4 by {
      assert p[1..] == [] && q[1..] == [];
    }
    assert StringLess([a3] + p, [b3] + q) <==> a3 < b3 || (a3 == b3 && StringLess(p, q)) by {
      assert ([a3] + p)[1..] == p && ([b3] + q)[1..] == q;
    }
    var p3, q3 := [a3] + p, [b3] + q;
    assert StringLess([':'] + p3, [':'] + q3) == StringLess(p3, q3) by {
      assert ([':'] + p3)[1..] == p3 && ([':'] + q3)[1..] == q3;
    }
    var p2, q2 := [':'] + p3, [':'] + q3;
    assert StringLess([a1] + p2, [b1] + q2) <==> a1 < b1 || (a1 == b1 && StringLess(p2, q2)) by {
      assert ([a1] + p2)[1..] == p2 && ([b1] + q2)[1..] == q2;
    }
    var p1, q1 := [a1] + p2, [b1] + q2;
    assert StringLess([a0] + p1, [b0] + q1) <==> a0 < b0 || (a0 == b0 && StringLess(p1, q1)) by {
      assert ([a0] + p1)[1..] == p1 && ([b0] + q1)[1..] == q1;
    }
    assert a == [a0] + p1 && b == [b0] + q1;
  }

  /** Minutes past midnight order times as hours first, then minutes. */
  lemma MinutesOfDayOrder(h1: nat, m1: nat, h2: nat, m2: nat)
    requires m1 < 60 && m2 < 60
    ensures h1 * 60 + m1 < h2 * 60 + m2 <==> h1 < h2 || (h1 == h2 && m1 < m2)
  {
    if h1 < h2 {
      assert h1 * 60 + 60 <= h2 * 60;
    } else if h2 < h1 {
      assert h2 * 60 + 60 <= h1 * 60;
    }
  }

  /** On zero-padded `HH:MM` strings the string order is the order of the times. */
  lemma TimeTextLess(h1: nat, m1: nat, h2: nat, m2: nat)
    requires h1 < 100 && m1 < 60 && h2 < 100 && m2 < 60
    ensures StringLess(TimeText(h1, m1), TimeText(h2, m2)) <==> h1 * 60 + m1 < h2 * 60 + m2
  {
    Pad2Digits(h1); Pad2Digits(m1); Pad2Digits(h2); Pad2Digits(m2);
    DigitCharOrder(h1 / 10, h2 / 10); DigitCharOrder(h1 % 10, h2 % 10);
    DigitCharOrder(m1 / 10, m2 / 10); DigitCharOrder(m1 % 10, m2 % 10);
    TwoDigitOrder(h1, h2); TwoDigitOrder(m1, m2);
    MinutesOfDayOrder(h1, m1, h2, m2);
    assert TimeText(h1, m1) == [DigitChar(h1 / 10), DigitChar(h1 % 10), ':', DigitChar(m1 / 10), DigitChar(m1 % 10)];
    assert TimeText(h2, m2) == [DigitChar(h2 / 10), DigitChar(h2 % 10), ':', DigitChar(m2 / 10), DigitChar(m2 % 10)];
    ClockShapeLess(DigitChar(h1 / 10), DigitChar(h1 % 10), DigitChar(m1 / 10), DigitChar(m1 % 10),
                   DigitChar(h2 / 10), DigitChar(h2 % 10), DigitChar(m2 / 10), DigitChar(m2 % 10));
  }

  // ---------------------------------------------------------------------------
  // Case mapping (ASCII letters only)

  function LowerChar(c: char): char
  {
    if 'A' <= c <= 'Z' then (c as int + 32) as char else c
  }

  function UpperChar(c: char): char
  {
    if 'a' <= c <= 'z' then (c as int - 32) as char else c
  }

  /** `s.toLowerCase()` on ASCII letters; other characters are kept. */
  function Lower(s: string): (r: string)
    ensures |r| == |s|
    ensures forall i :: 0 <= i < |s| ==> r[i] == LowerChar(s[i])
  {
    seq(|s|, i requires 0 <= i < |s| => LowerChar(s[i]))
  }

  /** Lower-casing twice is lower-casing once. */
  lemma LowerIdempotent(s: string)
    ensures Lower(Lower(s)) == Lower(s)
  {
    assert forall i :: 0 <= i < |s| ==> LowerChar(LowerChar(s[i])) == LowerChar(s[i]);
  }

  /** A character JavaScript stores as a surrogate pair: one beyond the Basic Multilingual Plane. */
  predicate IsAstral(c: char) { c as int > 0xFFFF }

  /** JavaScript's `s.length`: the UTF-16 code units of `s`, one per character plus one more for
      each character stored as a surrogate pair. */
  function Utf16Length(s: string): (n: nat)
    ensures n >= |s|
    ensures (forall i :: 0 <= i < |s| ==> !IsAstral(s[i])) ==> n == |s|
  {
    |s| + |set i | 0 <= i < |s| && IsAstral(s[i])|
  }

  /** A single emoji is two code units long, so a one-emoji search term reaches the search. */
  lemma Utf16LengthSurrogatePair()
    ensures Utf16Length("\U{1F600}") == 2
  {
    assert (set i | 0 <= i < |"\U{1F600}"| && IsAstral("\U{1F600}"[i])) == {0};
  }

  /** Lower-casing keeps the UTF-16 length. */
  lemma Utf16LengthLower(s: string)
    ensures Utf16Length(Lower(s)) == Utf16Length(s)
  {
    assert (set i | 0 <= i < |s| && IsAstral(Lower(s)[i])) == (set i | 0 <= i < |s| && IsAstral(s[i]));
  }

  // ---------------------------------------------------------------------------
  // Substrings

  /** `s.includes(sub)`. */
  predicate Contains(s: string, sub: string)
  {
    sub <= s || (s != [] && Contains(s[1..], sub))
  }

  /** `includes` holds exactly when `sub` occurs at some position of `s`. */
  lemma {:induction false} ContainsIff(s: string, sub: string)
    ensures Contains(s, sub) <==> exists i :: 0 <= i <= |s| && sub <= s[i..]
  {
    if s != [] {
      ContainsIff(s[1..], sub);
      if Contains(s[1..], sub) {
        var i :| 0 <= i <= |s[1..]| && sub <= s[1..][i..];
        assert s[1..][i..] == s[i + 1..];
      }
      if exists i :: 0 <= i <= |s| && sub <= s[i..] {
        var i :| 0 <= i <= |s| && sub <= s[i..];
        if i > 0 {
          assert s[1..][i - 1..] == s[i..];
        }
      }
    } else {
      assert s[0..] == s;
    }
  }

  // ---------------------------------------------------------------------------
  // Whitespace and trimming

  /** The characters JavaScript's `trim` and `\s` treat as white space or line terminators. */
  predicate IsWhitespace(c: char)
  {
    c == ' ' || c == '\t' || c == '\n' || c == '\r' || c == '\U{000B}' || c == '\U{000C}' ||
    c == '\U{00A0}' || c == '\U{1680}' || ('\U{2000}' <= c <= '\U{200A}') ||
    c == '\U{2028}' || c == '\U{2029}' || c == '\U{202F}' || c == '\U{205F}' ||
    c == '\U{3000}' || c == '\U{FEFF}'
  }

  function TrimStart(s: string): string
  {
    if s != [] && IsWhitespace(s[0]) then TrimStart(s[1..]) else s
  }

  function TrimEnd(s: string): string
  {
    if s != [] && IsWhitespace(s[|s| - 1]) then TrimEnd(s[..|s| - 1]) else s
  }

  /** `s.trim()`. */
  function Trim(s: string): string
  {
    TrimEnd(TrimStart(s))
  }

  predicate IsBlank(s: string)
  {
    forall i :: 0 <= i < |s| ==> IsWhitespace(s[i])
  }

  lemma {:induction false} TrimEndEmpty(s: string)
    ensures TrimEnd(s) == [] <==> IsBlank(s)
  {
    if s != [] {
      TrimEndEmpty(s[..|s| - 1]);
      if IsWhitespace(s[|s| - 1]) {
        assert IsBlank(s) <==> IsBlank(s[..|s| - 1]) by {
          if IsBlank(s[..|s| - 1]) {
            forall i | 0 <= i < |s| ensures IsWhitespace(s[i]) {
              if i < |s| - 1 { assert s[i] == s[..|s| - 1][i]; }
            }
          }
          if IsBlank(s) {
            var t := s[..|s| - 1];
            forall i | 0 <= i < |t| ensures IsWhitespace(t[i]) {
              assert s[i] == t[i];
            }
          }
        }
      }
    }
  }

  lemma {:induction false} TrimStartKeepsBlankness(s: string)
    ensures IsBlank(TrimStart(s)) <==> IsBlank(s)
  {
    if s != [] && IsWhitespace(s[0]) {
      TrimStartKeepsBlankness(s[1..]);
      assert IsBlank(s) <==> IsBlank(s[1..]) by {
        if IsBlank(s[1..]) {
          forall i | 0 <= i < |s| ensures IsWhitespace(s[i]) {
            if i > 0 { assert s[i] == s[1..][i - 1]; }
          }
        }
      }
    }
  }

  /** `!s.trim()` holds exactly when every character of `s` is white space. */
  lemma TrimEmptyIffBlank(s: string)
    ensures Trim(s) == [] <==> IsBlank(s)
  {
    TrimEndEmpty(TrimStart(s));
    TrimStartKeepsBlankness(s);
  }

  // ---------------------------------------------------------------------------
  // Splitting on one character and joining

  function CountChar(s: string, c: char): nat
  {
    if s == [] then 0 else (if s[0] == c then 1 else 0) + CountChar(s[1..], c)
  }

  /** `s.split(sep)` for a one-character separator. */
  function Split(s: string, sep: char): (parts: seq<string>)
    ensures |parts| >= 1
  {
    if s == [] then [[]]
    else if s[0] == sep then [[]] + Split(s[1..], sep)
    else
      var rest := Split(s[1..], sep);
      [[s[0]] + rest[0]] + rest[1..]
  }

  /** `parts.join(sep)`. */
  function Join(parts: seq<string>, sep: string): string
  {
    if |parts| == 0 then []
    else if |parts| == 1 then parts[0]
    else parts[0] + sep + Join(parts[1..], sep)
  }

  /** `split` gives one piece more than there are separators, and no piece holds one. */
  lemma {:induction false} SplitPieces(s: string, sep: char)
    ensures |Split(s, sep)| == CountChar(s, sep) + 1
    ensures forall k :: 0 <= k < |Split(s, sep)| ==> sep !in Split(s, sep)[k]
  {
    if s != [] {
      SplitPieces(s[1..], sep);
      if s[0] != sep {
        var rest := Split(s[1..], sep);
        assert sep !in rest[0];
        forall k | 0 <= k < |Split(s, sep)| ensures sep !in Split(s, sep)[k] {
          if k > 0 { assert Split(s, sep)[k] == rest[k]; }
        }
      } else {
        var rest := Split(s[1..], sep);
        forall k | 0 <= k < |Split(s, sep)| ensures sep !in Split(s, sep)[k] {
          if k > 0 { assert Split(s, sep)[k] == rest[k - 1]; }
        }
      }
    }
  }

  /** Joining the pieces of a split with the separator gives back the string. */
  lemma {:induction false} JoinSplit(s: string, sep: char)
    ensures Join(Split(s, sep), [sep]) == s
  {
    if s != [] {
      JoinSplit(s[1..], sep);
      var rest := Split(s[1..], sep);
      if s[0] == sep {
        assert Split(s, sep) == [[]] + rest;
        assert (Split(s, sep))[1..] == rest;
        assert s == [sep] + s[1..];
      } else {
        var parts := Split(s, sep);
        assert parts[0] == [s[0]] + rest[0] && parts[1..] == rest[1..];
        if |rest| == 1 {
          assert s == [s[0]] + rest[0];
        } else {
          assert Join(rest, [sep]) == rest[0] + [sep] + Join(rest[1..], [sep]);
          assert s == [s[0]] + s[1..];
        }
      }
    }
  }

  /** Every character of a piece comes from the string. */
  lemma {:induction false} SplitPieceChars(s: string, sep: char)
    ensures forall k, c :: 0 <= k < |Split(s, sep)| && c in Split(s, sep)[k] ==> c in s
  {
    if s != [] {
      SplitPieceChars(s[1..], sep);
      var rest := Split(s[1..], sep);
      assert forall x :: x in s[1..] ==> x in s by {
        forall x | x in s[1..] ensures x in s {
          var i :| 0 <= i < |s[1..]| && s[1..][i] == x;
          assert s[i + 1] == x;
        }
      }
      forall k, c | 0 <= k < |Split(s, sep)| && c in Split(s, sep)[k] ensures c in s {
        if s[0] == sep {
          if k > 0 { assert Split(s, sep)[k] == rest[k - 1]; }
        } else if k > 0 {
          assert Split(s, sep)[k] == rest[k];
        } else if c != s[0] {
          assert Split(s, sep)[0] == [s[0]] + rest[0];
          assert c in rest[0];
        }
      }
    }
  }

  /** A string without the separator is a single piece. */
  lemma {:induction false} SplitWithoutSeparator(s: string, sep: char)
    requires sep !in s
    ensures Split(s, sep) == [s]
  {
    if s != [] {
      SplitWithoutSeparator(s[1..], sep);
      assert [s[0]] + s[1..] == s;
    }
  }

  /** Splitting `p + sep + t` with no separator in `p` gives `p` and then the pieces of `t`. */
  lemma {:induction false} SplitAfterPiece(p: string, sep: char, t: string)
    requires sep !in p
    ensures Split(p + [sep] + t, sep) == [p] + Split(t, sep)
  {
    var s := p + [sep] + t;
    if p == [] {
      assert s[0] == sep && s[1..] == t;
    } else {
      assert s[0] == p[0] && s[1..] == p[1..] + [sep] + t;
      SplitAfterPiece(p[1..], sep, t);
      assert [p[0]] + p[1..] == p;
    }
  }

  /** Splitting a join of separator-free pieces gives the pieces back. */
  lemma {:induction false} SplitJoin(parts: seq<string>, sep: char)
    requires |parts| >= 1
    requires forall k :: 0 <= k < |parts| ==> sep !in parts[k]
    ensures Split(Join(parts, [sep]), sep) == parts
  {
    if |parts| == 1 {
      SplitWithoutSeparator(parts[0], sep);
    } else {
      SplitJoin(parts[1..], sep);
      SplitAfterPiece(parts[0], sep, Join(parts[1..], [sep]));
      assert [parts[0]] + parts[1..] == parts;
    }
  }

  /** Every character of a join comes from a piece or from the separator. */
  lemma {:induction false} JoinChars(parts: seq<string>, sep: string, c: char)
    requires c in Join(parts, sep)
    ensures c in sep || exists k :: 0 <= k < |parts| && c in parts[k]
  {
    if |parts| > 1 {
      if c !in parts[0] && c !in sep {
        JoinChars(parts[1..], sep, c);
        var k :| 0 <= k < |parts[1..]| && c in parts[1..][k];
        assert parts[1..][k] == parts[k + 1];
      }
    }
  }
}

/** The Python 3 string operations the evaluator relies on, stated over
    `seq<char>`: the `str.isspace()` class, `str.strip`, `str.split(sep)`,
    `str.split()`, `int(str)`, the literal check `float(str)` performs before
    it converts, and `str(int)`. */
module PyText {
  import opened Wrappers

  /** Python's whitespace class (`str.isspace()`), used by `str.split()`
      and by `str.strip()` with no argument. */
  predicate IsSpace(c: char) {
    ('\t' <= c <= '\r') || ('\U{1C}' <= c <= ' ') || ('\U{85}' <= c && c in OtherWhitespace)
  }

  /** The whitespace characters beyond ASCII. */
  const OtherWhitespace: set<char> := {
    '\U{85}', '\U{A0}', '\U{1680}', '\U{2000}', '\U{2001}', '\U{2002}', '\U{2003}', '\U{2004}', '\U{2005}',
    '\U{2006}', '\U{2007}', '\U{2008}', '\U{2009}', '\U{200A}', '\U{2028}', '\U{2029}', '\U{202F}',
    '\U{205F}', '\U{3000}'
  }

  /** The whitespace `int()` and `float()` skip around a number: Python's
      class without the separators U+001C to U+001F, which these two
      conversions do not skip. */
  predicate IsNumberSpace(c: char) {
    IsSpace(c) && !('\U{1C}' <= c <= '\U{1F}')
  }

  /** The two characters named by `strip("\n ")`. */
  predicate IsNewlineOrBlank(c: char) {
    c == '\n' || c == ' '
  }

  predicate IsDigit(c: char) {
    '0' <= c <= '9'
  }

  predicate StartsWith(s: string, prefix: string) {
    |prefix| <= |s| && s[..|prefix|] == prefix
  }

  /** Removes the longest prefix whose characters all satisfy `drop`. */
  function TrimLeft(s: string, drop: char -> bool): (r: string)
    ensures |r| <= |s|
    decreases |s|
  {
    if |s| > 0 && drop(s[0]) then TrimLeft(s[1..], drop) else s
  }

  /** Removes the longest suffix whose characters all satisfy `drop`. */
  function TrimRight(s: string, drop: char -> bool): (r: string)
    ensures |r| <= |s|
    decreases |s|
  {
    if |s| > 0 && drop(s[|s| - 1]) then TrimRight(s[..|s| - 1], drop) else s
  }

  /** `s.strip(chars)`: both ends trimmed. */
  function Strip(s: string, drop: char -> bool): string {
    TrimRight(TrimLeft(s, drop), drop)
  }

  /** `TrimLeft` keeps a suffix, drops only `drop` characters, and stops at
      the first character it must keep. */
  lemma {:induction false} TrimLeftKeepsSuffix(s: string, drop: char -> bool)
    ensures var r := TrimLeft(s, drop);
      && r == s[|s| - |r|..]
      && (|r| > 0 ==> !drop(r[0]))
      && (forall i :: 0 <= i < |s| - |r| ==> drop(s[i]))
    decreases |s|
  {
    if |s| > 0 && drop(s[0]) {
      TrimLeftKeepsSuffix(s[1..], drop);
    }
  }

  /** `TrimRight` keeps a prefix, drops only `drop` characters, and stops at
      the last character it must keep. */
  lemma {:induction false} TrimRightKeepsPrefix(s: string, drop: char -> bool)
    ensures var r := TrimRight(s, drop);
      && r == s[..|r|]
      && (|r| > 0 ==> !drop(r[|r| - 1]))
      && (forall i :: |r| <= i < |s| ==> drop(s[i]))
    decreases |s|
  {
    if |s| > 0 && drop(s[|s| - 1]) {
      TrimRightKeepsPrefix(s[..|s| - 1], drop);
    }
  }

  /** Nothing is left of a text made only of dropped characters. */
  lemma {:induction false} TrimLeftOfDropped(s: string, drop: char -> bool)
    requires forall i :: 0 <= i < |s| ==> drop(s[i])
    ensures TrimLeft(s, drop) == ""
    decreases |s|
  {
    if |s| > 0 {
      assert drop(s[0]);
      TrimLeftOfDropped(s[1..], drop);
    }
  }

  /** Neither end of a stripped text is a stripped character, and a text
      that already has none at its ends is left as it is. */
  lemma StripEnds(s: string, drop: char -> bool)
    ensures var r := Strip(s, drop);
      && (|r| > 0 ==> !drop(r[0]) && !drop(r[|r| - 1]))
      && ((|s| == 0 || (!drop(s[0]) && !drop(s[|s| - 1]))) ==> r == s)
  {
    var l := TrimLeft(s, drop);
    TrimLeftKeepsSuffix(s, drop);
    TrimRightKeepsPrefix(l, drop);
    var r := TrimRight(l, drop);
    if |r| > 0 {
      assert r[0] == l[0];
    }
  }

  /** Stripping removes margins made only of stripped characters around a
      text whose two ends are kept, and nothing more. */
  lemma StripMargins(lead: string, s: string, trail: string, drop: char -> bool)
    requires |s| > 0 && !drop(s[0]) && !drop(s[|s| - 1])
    requires forall i :: 0 <= i < |lead| ==> drop(lead[i])
    requires forall i :: 0 <= i < |trail| ==> drop(trail[i])
    ensures Strip(lead + s + trail, drop) == s
  {
    assert lead + s + trail == lead + (s + trail);
    TrimLeftMargin(lead, s + trail, drop);
    TrimRightMargin(s, trail, drop);
  }

  lemma {:induction false} TrimLeftMargin(lead: string, s: string, drop: char -> bool)
    requires |s| > 0 && !drop(s[0])
    requires forall i :: 0 <= i < |lead| ==> drop(lead[i])
    ensures TrimLeft(lead + s, drop) == s
    decreases |lead|
  {
    if |lead| == 0 {
      assert lead + s == s;
    } else {
      assert (lead + s)[0] == lead[0];
      assert (lead + s)[1..] == lead[1..] + s;
      TrimLeftMargin(lead[1..], s, drop);
    }
  }

  lemma {:induction false} TrimRightMargin(s: string, trail: string, drop: char -> bool)
    requires |s| > 0 && !drop(s[|s| - 1])
    requires forall i :: 0 <= i < |trail| ==> drop(trail[i])
    ensures TrimRight(s + trail, drop) == s
    decreases |trail|
  {
    if |trail| == 0 {
      assert s + trail == s;
    } else {
      var t := s + trail;
      assert t[|t| - 1] == trail[|trail| - 1];
      assert t[..|t| - 1] == s + trail[..|trail| - 1];
      TrimRightMargin(s, trail[..|trail| - 1], drop);
    }
  }

  /** Inverse of `Split`: the parts glued back with the separator between them. */
  function Join(parts: seq<string>, sep: char): string
    requires |parts| >= 1
  {
    if |parts| == 1 then parts[0] else parts[0] + [sep] + Join(parts[1..], sep)
  }

  /** `s.split(sep)` for a one-character separator: every occurrence cuts,
      so there is always one more part than there are separators. */
  function Split(s: string, sep: char): (parts: seq<string>)
    ensures |parts| >= 1
    decreases |s|
  {
    if |s| == 0 then [""]
    else if s[0] == sep then [""] + Split(s[1..], sep)
    else
      var rest := Split(s[1..], sep);
      [[s[0]] + rest[0]] + rest[1..]
  }

  /** No part of a split holds the separator. */
  lemma {:induction false} SplitPartsLackSeparator(s: string, sep: char)
    ensures forall i :: 0 <= i < |Split(s, sep)| ==> sep !in Split(s, sep)[i]
    decreases |s|
  {
    if |s| > 0 {
      SplitPartsLackSeparator(s[1..], sep);
      var rest := Split(s[1..], sep);
      if s[0] != sep {
        var parts := Split(s, sep);
        forall i | 0 <= i < |parts|
          ensures sep !in parts[i]
        {
          if i > 0 {
            assert parts[i] == rest[i];
          } else {
            assert parts[0] == [s[0]] + rest[0];
          }
        }
      }
    }
  }

  /** Joining undoes splitting. */
  lemma {:induction false} JoinSplit(s: string, sep: char)
    ensures Join(Split(s, sep), sep) == s
    decreases |s|
  {
    if |s| > 0 {
      JoinSplit(s[1..], sep);
      var rest := Split(s[1..], sep);
      if s[0] == sep {
        assert Split(s, sep) == [""] + rest;
        assert ([""] + rest)[1..] == rest;
      } else {
        var parts := Split(s, sep);
        assert parts == [[s[0]] + rest[0]] + rest[1..];
        if |rest| == 1 {
          assert parts == [[s[0]] + rest[0]];
        } else {
          assert parts[1..] == rest[1..];
          assert Join(rest, sep) == rest[0] + [sep] + Join(rest[1..], sep);
        }
      }
    }
  }

  lemma {:induction false} SplitNoSeparator(s: string, sep: char)
    requires sep !in s
    ensures Split(s, sep) == [s]
    decreases |s|
  {
    if |s| > 0 {
      SplitNoSeparator(s[1..], sep);
      assert [s[0]] + s[1..] == s;
    }
  }

  lemma {:induction false} SplitAfterPart(a: string, b: string, sep: char)
    requires sep !in a
    ensures Split(a + [sep] + b, sep) == [a] + Split(b, sep)
    decreases |a|
  {
    if |a| == 0 {
      assert a + [sep] + b == [sep] + b;
      assert ([sep] + b)[1..] == b;
    } else {
      SplitAfterPart(a[1..], b, sep);
      assert (a + [sep] + b)[1..] == a[1..] + [sep] + b;
      assert [a[0]] + a[1..] == a;
    }
  }

  /** Splitting undoes joining whenever no part holds the separator. */
  lemma {:induction false} SplitJoin(parts: seq<string>, sep: char)
    requires |parts| >= 1
    requires forall i :: 0 <= i < |parts| ==> sep !in parts[i]
    ensures Split(Join(parts, sep), sep) == parts
    decreases |parts|
  {
    if |parts| == 1 {
      SplitNoSeparator(parts[0], sep);
    } else {
      SplitJoin(parts[1..], sep);
      SplitAfterPart(parts[0], Join(parts[1..], sep), sep);
      assert [parts[0]] + parts[1..] == parts;
    }
  }

  /** The longest prefix of `s` holding no whitespace. */
  function Word(s: string): (w: string)
    ensures |w| <= |s| && w == s[..|w|]
    ensures forall i :: 0 <= i < |w| ==> !IsSpace(w[i])
    ensures |w| < |s| ==> IsSpace(s[|w|])
    decreases |s|
  {
    if |s| == 0 || IsSpace(s[0]) then ""
    else
      var w := [s[0]] + Word(s[1..]);
      assert w == s[..|w|];
      w
  }

  predicate IsWord(w: string) {
    |w| > 0 && forall i :: 0 <= i < |w| ==> !IsSpace(w[i])
  }

  /** `s.split()`: the maximal runs of non-whitespace characters, in order. */
  function Fields(s: string): (ws: seq<string>)
    ensures forall i :: 0 <= i < |ws| ==> IsWord(ws[i])
    decreases |s|
  {
    if |s| == 0 then []
    else if IsSpace(s[0]) then Fields(s[1..])
    else
      var w := Word(s);
      [w] + Fields(s[|w|..])
  }

  /** A run of whitespace, possibly empty. */
  predicate IsBlankRun(g: string) {
    forall i :: 0 <= i < |g| ==> IsSpace(g[i])
  }

  /** Runs that can stand between two fields: whitespace, and at least one character of it. */
  predicate AreSeparators(gaps: seq<string>) {
    forall i :: 0 <= i < |gaps| ==> |gaps[i]| > 0 && IsBlankRun(gaps[i])
  }

  /** Words set out in columns: `gaps[i]` stands between `ws[i]` and `ws[i + 1]`. */
  function Spaced(ws: seq<string>, gaps: seq<string>): string
    requires |ws| > 0 && |gaps| == |ws| - 1
    decreases |ws|
  {
    if |ws| == 1 then ws[0] else ws[0] + gaps[0] + Spaced(ws[1..], gaps[1..])
  }

  /** `split()` gives back the words, whatever whitespace separates them. */
  lemma {:induction false} FieldsOfSpaced(ws: seq<string>, gaps: seq<string>)
    requires |ws| > 0 && |gaps| == |ws| - 1
    requires forall i :: 0 <= i < |ws| ==> IsWord(ws[i])
    requires AreSeparators(gaps)
    ensures Fields(Spaced(ws, gaps)) == ws
    decreases |ws|
  {
    if |ws| == 1 {
      FieldsCons(ws[0], "");
      assert ws[0] + "" == ws[0];
    } else {
      var tail, between := ws[1..], gaps[1..];
      assert forall i :: 0 <= i < |tail| ==> IsWord(tail[i]) by {
        forall i | 0 <= i < |tail| ensures IsWord(tail[i]) { assert tail[i] == ws[i + 1]; }
      }
      assert AreSeparators(between) by {
        forall i | 0 <= i < |between| ensures |between[i]| > 0 && IsBlankRun(between[i]) {
          assert between[i] == gaps[i + 1];
        }
      }
      var rest := Spaced(tail, between);
      FieldsOfSpaced(tail, between);
      assert ws[0] + gaps[0] + rest == ws[0] + (gaps[0] + rest);
      assert (gaps[0] + rest)[0] == gaps[0][0];
      FieldsCons(ws[0], gaps[0] + rest);
      FieldsAfterRun(gaps[0], rest);
      HeadTail(ws);
    }
  }

  /** Leading whitespace contributes no field. */
  lemma {:induction false} FieldsAfterRun(g: string, rest: string)
    requires IsBlankRun(g)
    ensures Fields(g + rest) == Fields(rest)
    decreases |g|
  {
    if |g| == 0 {
      assert g + rest == rest;
    } else {
      assert IsSpace((g + rest)[0]);
      assert (g + rest)[1..] == g[1..] + rest;
      FieldsAfterRun(g[1..], rest);
    }
  }

  lemma HeadTail<T>(s: seq<T>)
    requires |s| > 0
    ensures [s[0]] + s[1..] == s
  {
  }

  /** A word followed by whitespace (or nothing) is the first field. */
  lemma FieldsCons(w: string, tail: string)
    requires IsWord(w)
    requires |tail| == 0 || IsSpace(tail[0])
    ensures Fields(w + tail) == [w] + Fields(tail)
  {
    var s := w + tail;
    WordOfWord(w, tail);
    assert s[|w|..] == tail;
  }

  lemma {:induction false} WordOfWord(w: string, tail: string)
    requires IsWord(w)
    requires |tail| == 0 || IsSpace(tail[0])
    ensures Word(w + tail) == w
    decreases |w|
  {
    var s := w + tail;
    if |w| > 1 {
      assert IsWord(w[1..]);
      WordOfWord(w[1..], tail);
      assert s[1..] == w[1..] + tail;
      assert [w[0]] + w[1..] == w;
    } else {
      assert s[1..] == tail;
    }
  }

  /** Words set out in columns begin with the first word's first character
      and end with the last word's last character. */
  lemma {:induction false} SpacedEnds(ws: seq<string>, gaps: seq<string>)
    requires |ws| > 0 && |gaps| == |ws| - 1
    requires forall i :: 0 <= i < |ws| ==> IsWord(ws[i])
    ensures var s := Spaced(ws, gaps); var last := ws[|ws| - 1];
      IsWord(ws[0]) && IsWord(last) && |s| > 0 && s[0] == ws[0][0] && s[|s| - 1] == last[|last| - 1]
    decreases |ws|
  {
    if |ws| > 1 {
      var tail := ws[1..];
      assert forall i :: 0 <= i < |tail| ==> IsWord(tail[i]) by {
        forall i | 0 <= i < |tail| ensures IsWord(tail[i]) { assert tail[i] == ws[i + 1]; }
      }
      SpacedEnds(tail, gaps[1..]);
      assert tail[|tail| - 1] == ws[|ws| - 1];
    }
  }

  /** Decimal digits with single `_` separators between them, as `int()` accepts. */
  predicate IsDigitGroup(d: string) {
    |d| > 0 && IsDigit(d[0]) && IsDigit(d[|d| - 1])
    && forall i :: 0 <= i < |d| ==> IsDigit(d[i]) || (d[i] == '_' && i + 1 < |d| && IsDigit(d[i + 1]))
  }

  /** The value of a digit group, underscores ignored. */
  function DigitsValue(d: string): (v: nat)
    decreases |d|
  {
    if |d| == 0 then 0
    else if d[|d| - 1] == '_' then DigitsValue(d[..|d| - 1])
    else DigitsValue(d[..|d| - 1]) * 10 + DigitValue(d[|d| - 1])
  }

  /** The number of decimal digits in a text, underscores not counted. */
  function DigitCount(d: string): nat
    decreases |d|
  {
    if |d| == 0 then 0
    else DigitCount(d[..|d| - 1]) + (if IsDigit(d[|d| - 1]) then 1 else 0)
  }

  /** The default of `sys.get_int_max_str_digits()`: `int()` raises
      `ValueError` on a decimal text with more digits than this. */
  const MaxStrDigits: nat := 4300

  /** Whether the decimal form of `i` has few enough digits for `int()`. */
  predicate WithinDigitLimit(i: int) {
    |NatToString(if i < 0 then -i else i)| <= MaxStrDigits
  }

  function DigitValue(c: char): nat {
    if IsDigit(c) then (c as int) - ('0' as int) else 0
  }

  /** `int(s)` in base 10: optional surrounding whitespace, an optional sign,
      then a digit group. `None` stands for the `ValueError` Python raises.
      Whitespace is peeled off one character at a time, first on the left,
      then on the right (`ParseIntIsStripped` shows this is `strip()`). */
  function ParseInt(s: string): Option<int>
    decreases |s|
  {
    if |s| > 0 && IsNumberSpace(s[0]) then ParseInt(s[1..])
    else if |s| > 0 && IsNumberSpace(s[|s| - 1]) then ParseInt(s[..|s| - 1])
    else ParseSigned(s)
  }

  /** An optional sign, then a digit group of at most `MaxStrDigits` digits. */
  function ParseSigned(t: string): Option<int> {
    var signed := |t| > 0 && (t[0] == '+' || t[0] == '-');
    var digits := if signed then t[1..] else t;
    var magnitude: int := DigitsValue(digits);
    if !IsDigitGroup(digits) || DigitCount(digits) > MaxStrDigits then None
    else if signed && t[0] == '-' then Some(-magnitude)
    else Some(magnitude)
  }

  /** `int(s)` reads what `s.strip()` leaves. */
  lemma {:induction false} ParseIntIsStripped(s: string)
    ensures ParseInt(s) == ParseSigned(Strip(s, IsNumberSpace))
    decreases |s|
  {
    if |s| > 0 && IsNumberSpace(s[0]) {
      ParseIntIsStripped(s[1..]);
      assert TrimLeft(s, IsNumberSpace) == TrimLeft(s[1..], IsNumberSpace);
    } else if |s| > 0 && IsNumberSpace(s[|s| - 1]) {
      var t := s[..|s| - 1];
      ParseIntIsStripped(t);
      assert TrimLeft(s, IsNumberSpace) == s;
      assert t[0] == s[0];
      assert TrimLeft(t, IsNumberSpace) == t;
      assert TrimRight(s, IsNumberSpace) == TrimRight(t, IsNumberSpace);
    } else {
      assert TrimLeft(s, IsNumberSpace) == s;
      assert TrimRight(s, IsNumberSpace) == s;
    }
  }

  /** U+001C separates fields for `split()`, yet `int()` refuses it around a number. */
  lemma SeparatorIsNotNumberSpace()
    ensures Fields("\U{1C}7") == ["7"]
    ensures ParseInt("\U{1C}7") == None
  {
    var s := "\U{1C}7";
    assert s[1..] == "7";
    assert Word("7") == "7";
    assert "7"[1..] == "";
    assert !IsDigitGroup(s);
  }

  /** `str(n)` for a non-negative integer: its shortest decimal form. */
  function NatToString(n: nat): (s: string)
    ensures |s| > 0 && IsDigit(s[0])
    ensures forall i :: 0 <= i < |s| ==> IsDigit(s[i])
    ensures s[0] == '0' ==> n == 0
    ensures DigitsValue(s) == n
  {
    if n < 10 then [DigitChar(n)]
    else
      var p := NatToString(n / 10);
      var s := p + [DigitChar(n % 10)];
      assert s[..|s| - 1] == p;
      s
  }

  /** `str(i)`: a minus sign before the digits of a negative number. */
  function IntToString(i: int): string {
    if i < 0 then "-" + NatToString(-i) else NatToString(i)
  }

  function DigitChar(d: nat): (c: char)
    requires d < 10
    ensures IsDigit(c) && DigitValue(c) == d
  {
    ('0' as int + d) as char
  }

  /** `int(str(n)) == n` when `str(n)` is within the digit limit; beyond
      it, `int()` raises. */
  lemma ParseNatToString(n: nat)
    ensures ParseInt(NatToString(n)) == if WithinDigitLimit(n) then Some(n) else None
  {
    var s := NatToString(n);
    DigitIsNotSpace(s[0]);
    DigitIsNotSpace(s[|s| - 1]);
    AllDigitsCounted(s);
    assert IsDigitGroup(s);
  }

  /** `int(str(i)) == i`, negative numbers included, within the digit limit;
      beyond it, `int()` raises. */
  lemma ParseIntToString(i: int)
    ensures ParseInt(IntToString(i)) == if WithinDigitLimit(i) then Some(i) else None
  {
    if i < 0 {
      NegativeNatToString(-i);
    } else {
      ParseNatToString(i);
    }
  }

  lemma NegativeNatToString(m: nat)
    ensures ParseInt("-" + NatToString(m)) == if WithinDigitLimit(m) then Some(-(m as int)) else None
  {
    var d := NatToString(m);
    var s := "-" + d;
    DigitIsNotSpace(d[|d| - 1]);
    AllDigitsCounted(d);
    assert s[1..] == d && s[|s| - 1] == d[|d| - 1];
    assert IsDigitGroup(d);
  }

  /** In a text of digits only, every character counts towards the limit. */
  lemma {:induction false} AllDigitsCounted(d: string)
    requires forall i :: 0 <= i < |d| ==> IsDigit(d[i])
    ensures DigitCount(d) == |d|
    decreases |d|
  {
    if |d| > 0 {
      AllDigitsCounted(d[..|d| - 1]);
    }
  }

  /** A bare digit group reads as a number exactly when it has at most
      `MaxStrDigits` digits, underscores not counted. */
  lemma DigitGroupWithinLimit(d: string)
    requires IsDigitGroup(d)
    ensures ParseInt(d).Some? <==> DigitCount(d) <= MaxStrDigits
  {
    DigitIsNotSpace(d[0]);
    DigitIsNotSpace(d[|d| - 1]);
  }

  /** `int("1" * 4301)` raises: one digit too many. */
  lemma TooManyDigitsRefused()
    ensures ParseInt(seq(MaxStrDigits + 1, _ => '1')) == None
  {
    var d := seq(MaxStrDigits + 1, _ => '1');
    AllDigitsCounted(d);
    DigitIsNotSpace(d[0]);
    DigitIsNotSpace(d[|d| - 1]);
  }

  /** `str(i)` is one field of a line. */
  lemma NumberIsWord(i: int)
    ensures IsWord(IntToString(i))
  {
    var s := IntToString(i);
    forall k | 0 <= k < |s|
      ensures !IsSpace(s[k])
    {
      if i < 0 && k == 0 {
        assert s[k] == '-';
      } else {
        DigitIsNotSpace(s[k]);
      }
    }
  }

  lemma DigitIsNotSpace(c: char)
    requires IsDigit(c)
    ensures !IsSpace(c)
  {
  }

  /** Distinct numbers have distinct decimal forms. */
  lemma NatToStringInjective(m: nat, n: nat)
    requires NatToString(m) == NatToString(n)
    ensures m == n
  {
  }

  /** A text with no `-` never reads as a negative integer. */
  lemma {:induction false} ParseIntWithoutMinus(s: string)
    requires '-' !in s
    ensures ParseInt(s).Some? ==> ParseInt(s).value >= 0
    decreases |s|
  {
    if |s| > 0 && IsNumberSpace(s[0]) {
      ParseIntWithoutMinus(s[1..]);
    } else if |s| > 0 && IsNumberSpace(s[|s| - 1]) {
      ParseIntWithoutMinus(s[..|s| - 1]);
    } else if |s| > 0 {
      assert s[0] in s;
    }
  }

  /** ASCII lower-casing, enough for the case-insensitive words of `float()`. */
  function Lower(s: string): (r: string)
    ensures |r| == |s|
    ensures forall i :: 0 <= i < |s| ==> (IsDigit(r[i]) <==> IsDigit(s[i]))
  {
    seq(|s|, i requires 0 <= i < |s| => if 'A' <= s[i] <= 'Z' then (s[i] as int + 32) as char else s[i])
  }

  /** The mantissa of a decimal float: `d`, `d.`, `d.d` or `.d`. */
  predicate IsMantissa(m: string) {
    var parts := Split(m, '.');
    if |parts| == 1 then IsDigitGroup(m)
    else
      |parts| == 2
      && (parts[0] == "" || IsDigitGroup(parts[0]))
      && (parts[1] == "" || IsDigitGroup(parts[1]))
      && (parts[0] != "" || parts[1] != "")
  }

  /** The digits after `e`, with an optional sign. */
  predicate IsExponent(x: string) {
    if |x| > 0 && (x[0] == '+' || x[0] == '-') then IsDigitGroup(x[1..]) else IsDigitGroup(x)
  }

  /** Whether `float(s)` accepts `s` (rather than raising `ValueError`). */
  predicate IsFloatLiteral(s: string) {
    var t := Lower(Strip(s, IsNumberSpace));
    var u := if |t| > 0 && (t[0] == '+' || t[0] == '-') then t[1..] else t;
    u == "inf" || u == "infinity" || u == "nan"
    || (var parts := Split(u, 'e');
        (|parts| == 1 && IsMantissa(u))
        || (|parts| == 2 && IsMantissa(parts[0]) && IsExponent(parts[1])))
  }

  /** `float()` accepts the `<int>.<frac>` form of a time the tool prints. */
  lemma DecimalIsFloatLiteral(n: nat, m: nat)
    ensures IsFloatLiteral(NatToString(n) + "." + NatToString(m))
  {
    var a, b := NatToString(n), NatToString(m);
    var s := a + "." + b;
    DecimalChars(a, b);
    DecimalMantissa(a, b);
    assert s[0] == a[0] && s[|s| - 1] == b[|b| - 1];
    DigitIsNotSpace(s[0]);
    DigitIsNotSpace(s[|s| - 1]);
    assert TrimLeft(s, IsNumberSpace) == s;
    assert TrimRight(s, IsNumberSpace) == s;
    assert Lower(s) == s;
    SplitNoSeparator(s, 'e');
  }

  /** Two runs of digits joined by a point hold only digits and that point. */
  lemma DecimalChars(a: string, b: string)
    requires forall i :: 0 <= i < |a| ==> IsDigit(a[i])
    requires forall i :: 0 <= i < |b| ==> IsDigit(b[i])
    ensures forall k :: 0 <= k < |a + "." + b| ==> IsDigit((a + "." + b)[k]) || (a + "." + b)[k] == '.'
  {
    var s := a + "." + b;
    forall k | 0 <= k < |s|
      ensures IsDigit(s[k]) || s[k] == '.'
    {
      if k < |a| {
        assert s[k] == a[k];
      } else if k > |a| {
        assert s[k] == b[k - |a| - 1];
      }
    }
  }

  /** Two digit groups joined by a point form a mantissa. */
  lemma DecimalMantissa(a: string, b: string)
    requires IsDigitGroup(a) && IsDigitGroup(b) && '.' !in a && '.' !in b
    ensures IsMantissa(a + "." + b)
  {
    assert Join([a, b], '.') == a + "." + b;
    SplitJoin([a, b], '.');
  }
}

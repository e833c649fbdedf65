/** Values shared by every part of the model: optional values, results, and the
    few string operations the framework performs (ASCII case mapping, stripping
    a repeated character from one end, substring search). */
module Common {

  datatype Option<+T> = None | Some(value: T)

  datatype Result<+T, +E> = Ok(value: T) | Err(error: E)

  /** Upper-casing of one character; only ASCII letters change. */
  function UpperChar(c: char): char
  {
    if 'a' <= c <= 'z' then (c as int - 32) as char else c
  }

  /** Lower-casing of one character; only ASCII letters change. */
  function LowerChar(c: char): char
  {
    if 'A' <= c <= 'Z' then (c as int + 32) as char else c
  }

  function Upper(s: string): string
  {
    seq(|s|, i requires 0 <= i < |s| => UpperChar(s[i]))
  }

  function Lower(s: string): string
  {
    seq(|s|, i requires 0 <= i < |s| => LowerChar(s[i]))
  }

  /** A string that upper-casing leaves as it is. */
  predicate IsUpper(s: string)
  {
    Upper(s) == s
  }

  lemma UpperIsUpper(s: string)
    ensures IsUpper(Upper(s))
  {
    var u := Upper(s);
    forall i | 0 <= i < |u|
      ensures Upper(u)[i] == u[i]
    {
      assert u[i] == UpperChar(s[i]);
    }
  }

  /** Two strings that differ only in the case of ASCII letters upper-case alike. */
  lemma UpperIgnoresCase(s: string, t: string)
    requires |s| == |t|
    requires forall i :: 0 <= i < |s| ==> UpperChar(s[i]) == UpperChar(t[i])
    ensures Upper(s) == Upper(t)
  {
  }

  /** `s.rstrip(c)`: every trailing `c` removed. */
  function TrimRight(s: string, c: char): (r: string)
    ensures |r| <= |s| && r == s[..|r|]
    ensures r == [] || r[|r| - 1] != c
    ensures forall i :: |r| <= i < |s| ==> s[i] == c
  {
    if |s| > 0 && s[|s| - 1] == c then TrimRight(s[..|s| - 1], c) else s
  }

  /** `s.lstrip(c)`: every leading `c` removed. */
  function TrimLeft(s: string, c: char): (r: string)
    ensures |r| <= |s| && r == s[|s| - |r|..]
    ensures r == [] || r[0] != c
    ensures forall i :: 0 <= i < |s| - |r| ==> s[i] == c
  {
    if |s| > 0 && s[0] == c then TrimLeft(s[1..], c) else s
  }

  /** `w` occurs in `s` starting at position `i`. */
  predicate OccursAt(s: string, w: string, i: int)
  {
    0 <= i && i + |w| <= |s| && s[i..i + |w|] == w
  }

  /** Python's `w in s` on two strings. */
  function Contains(s: string, w: string): (r: bool)
    ensures r <==> exists i :: OccursAt(s, w, i)
    decreases |s|
  {
    if |s| < |w| then
      assert forall i :: !OccursAt(s, w, i);
      false
    else if s[..|w|] == w then
      assert OccursAt(s, w, 0);
      true
    else
      var rest := Contains(s[1..], w);
      assert forall i :: OccursAt(s[1..], w, i) <==> OccursAt(s, w, i + 1) by {
        forall i ensures OccursAt(s[1..], w, i) <==> OccursAt(s, w, i + 1) {
          if 0 <= i && i + |w| <= |s| - 1 {
            assert s[1..][i..i + |w|] == s[i + 1..i + 1 + |w|];
          }
        }
      }
      assert !OccursAt(s, w, 0);
      assert rest ==> exists i :: OccursAt(s, w, i) by {
        if rest {
          var i :| OccursAt(s[1..], w, i);
          assert OccursAt(s, w, i + 1);
        }
      }
      assert (exists i :: OccursAt(s, w, i)) ==> rest by {
        if exists i :: OccursAt(s, w, i) {
          var i :| OccursAt(s, w, i);
          assert i != 0;
          assert OccursAt(s[1..], w, i - 1);
        }
      }
      rest
  }

  /** The number a string of decimal digits denotes, most significant digit
      first. */
  function DigitsValue(s: string): nat
    requires forall i :: 0 <= i < |s| ==> '0' <= s[i] <= '9'
  {
    if s == [] then 0 else DigitsValue(s[..|s| - 1]) * 10 + (s[|s| - 1] - '0') as nat
  }

  /** Decimal digits of a natural number, as `str(n)` gives them: digits
      only, no leading zero, and denoting `n`. */
  function NatToString(n: nat): (r: string)
    ensures |r| > 0
    ensures forall i :: 0 <= i < |r| ==> '0' <= r[i] <= '9'
    ensures |r| == 1 || r[0] != '0'
    ensures DigitsValue(r) == n
  {
    var d := ['0' + (n % 10) as char];
    if n < 10 then d
    else
      var hi := NatToString(n / 10);
      var r := hi + d;
      assert r[..|r| - 1] == hi;
      r
  }

  /** `str(i)` for a Python int: a minus sign before the digits of a negative
      number. */
  function IntToString(i: int): (r: string)
    ensures |r| > 0
    ensures i >= 0 ==> r == NatToString(i)
    ensures i < 0 ==> r == "-" + NatToString(-i) && r[0] == '-'
  {
    if i < 0 then "-" + NatToString(-i) else NatToString(i)
  }

  /** The text after the last dot, as a class's `__name__` is the last part
      of its qualified name. */
  function LastSegment(s: string): (r: string)
    ensures |r| <= |s| && r == s[|s| - |r|..]
    ensures '.' !in r
    ensures |r| < |s| ==> s[|s| - |r| - 1] == '.'
    decreases |s|
  {
    if s == [] || s[|s| - 1] == '.' then []
    else
      var r := LastSegment(s[..|s| - 1]) + [s[|s| - 1]];
      assert s[..|s| - 1][|s| - 1 - (|r| - 1)..] + [s[|s| - 1]] == s[|s| - |r|..];
      r
  }

  // ---- repr of a str -----------------------------------------------------

  /** The quote `repr(s)` uses: double quotes when `s` holds a single quote
      and no double quote, single quotes otherwise. */
  function ReprQuote(s: string): char
  {
    if '\'' in s && '"' !in s then '"' else '\''
  }

  /** Whether `repr` writes `c` as an escape inside quotes `q`: the quote
      itself, a backslash, and the ASCII control characters. */
  predicate NeedsEscape(c: char, q: char)
  {
    c == q || c == '\\' || (c as int) < 32 || c as int == 127
  }

  function HexDigit(d: nat): (r: char)
    requires d < 16
    ensures IsHexDigit(r) && HexValue(r) == d
  {
    if d < 10 then '0' + d as char else 'a' + (d - 10) as char
  }

  predicate IsHexDigit(c: char)
  {
    '0' <= c <= '9' || 'a' <= c <= 'f'
  }

  function HexValue(c: char): nat
    requires IsHexDigit(c)
  {
    if c <= '9' then (c - '0') as nat else (c - 'a') as nat + 10
  }

  /** How `repr` writes one character inside quotes `q`: `\t`, `\n`, `\r`,
      `\xhh` for the other control characters, a backslash before the quote
      and before a backslash, and any other character as itself. */
  function EscapeChar(c: char, q: char): (r: string)
    ensures r == [c] <==> !NeedsEscape(c, q)
    ensures |r| > 1 ==> r[0] == '\\'
  {
    if c == q || c == '\\' then ['\\', c]
    else if c == '\t' then "\\t"
    else if c == '\n' then "\\n"
    else if c == '\r' then "\\r"
    else if (c as int) < 32 || c as int == 127 then "\\x" + [HexDigit(c as int / 16), HexDigit(c as int % 16)]
    else [c]
  }

  function EscapeAll(s: string, q: char): string
  {
    if s == [] then [] else EscapeChar(s[0], q) + EscapeAll(s[1..], q)
  }

  /** `repr(s)` for a str, as `str(KeyError(s))` shows it. */
  function PyStrRepr(s: string): (r: string)
    ensures |r| >= 2 && r[0] == r[|r| - 1] == ReprQuote(s)
    ensures r[0] == '"' <==> '\'' in s && '"' !in s
    ensures (forall i :: 0 <= i < |s| ==> !NeedsEscape(s[i], '\'')) ==> r == "'" + s + "'"
  {
    var q := ReprQuote(s);
    if forall i :: 0 <= i < |s| ==> !NeedsEscape(s[i], '\'') then
      EscapeAllPlain(s, '\'');
      [q] + EscapeAll(s, q) + [q]
    else [q] + EscapeAll(s, q) + [q]
  }

  /** Reading an escaped string back: each escape `repr` writes stands for
      the character it encodes. */
  function Unescape(t: string): string
    decreases |t|
  {
    if |t| >= 2 && t[0] == '\\' then
      if t[1] == 't' then ['\t'] + Unescape(t[2..])
      else if t[1] == 'n' then ['\n'] + Unescape(t[2..])
      else if t[1] == 'r' then ['\r'] + Unescape(t[2..])
      else if t[1] == 'x' && |t| >= 4 && IsHexDigit(t[2]) && IsHexDigit(t[3]) then
        var v := HexValue(t[2]) * 16 + HexValue(t[3]);
        [v as char] + Unescape(t[4..])
      else [t[1]] + Unescape(t[2..])
    else if t == [] then []
    else [t[0]] + Unescape(t[1..])
  }

  /** Characters that need no escape under `q` are written as is. */
  lemma {:induction false} EscapeAllPlain(s: string, q: char)
    requires forall i :: 0 <= i < |s| ==> !NeedsEscape(s[i], q)
    ensures EscapeAll(s, q) == s
    decreases |s|
  {
    if s != [] {
      EscapeAllPlain(s[1..], q);
      assert s == [s[0]] + s[1..];
    }
  }

  /** Reading back one escaped character. */
  lemma UnescapeChar(c: char, q: char, rest: string)
    requires q == '\'' || q == '"'
    ensures Unescape(EscapeChar(c, q) + rest) == [c] + Unescape(rest)
  {
    var t := EscapeChar(c, q) + rest;
    if NeedsEscape(c, q) {
      if c == q || c == '\\' || c == '\t' || c == '\n' || c == '\r' {
        assert t[2..] == rest;
      } else {
        var d := [HexDigit(c as int / 16), HexDigit(c as int % 16)];
        assert t == ['\\', 'x', d[0], d[1]] + rest;
        assert t[4..] == rest;
        assert (HexValue(t[2]) * 16 + HexValue(t[3])) as char == c;
      }
    } else {
      assert t[1..] == rest;
    }
  }

  /** Reading back what `EscapeAll` wrote gives the original string. */
  lemma {:induction false} UnescapeEscapeAll(s: string, q: char)
    requires q == '\'' || q == '"'
    ensures Unescape(EscapeAll(s, q)) == s
    decreases |s|
  {
    if s != [] {
      UnescapeChar(s[0], q, EscapeAll(s[1..], q));
      UnescapeEscapeAll(s[1..], q);
      assert s == [s[0]] + s[1..];
    }
  }

  /** `repr` loses nothing: the text between its quotes reads back as `s`. */
  lemma ReprRoundTrip(s: string)
    ensures var r := PyStrRepr(s); Unescape(r[1..|r| - 1]) == s
  {
    var q := ReprQuote(s);
    var r := PyStrRepr(s);
    assert r[1..|r| - 1] == EscapeAll(s, q);
    UnescapeEscapeAll(s, q);
  }

  /** A text with a single quote and no double quote is shown in double
      quotes, its single quote unescaped. */
  lemma ReprSwitchesQuotes()
    ensures PyStrRepr("it's") == "\"it's\""
  {
    var s := "it's";
    assert s[2] == '\'';
    assert ReprQuote(s) == '"';
    EscapeAllPlain(s, '"');
  }
}

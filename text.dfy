/** The pieces of .NET string handling the core relies on: decimal formatting
    of integers (`int.ToString()`, the fixed-width custom date format
    specifiers), `String.Split` on one separator character, ASCII lower-casing
    and the white-space set of `NumberStyles.Integer`. */
module Text {

  predicate IsDigit(c: char) {
    '0' <= c <= '9'
  }

  predicate AllDigits(s: string) {
    forall i :: 0 <= i < |s| ==> IsDigit(s[i])
  }

  function DigitValue(c: char): nat
    requires IsDigit(c)
  {
    c as int - '0' as int
  }

  function DigitChar(d: nat): (c: char)
    requires d < 10
    ensures IsDigit(c) && DigitValue(c) == d
  {
    ('0' as int + d) as char
  }

  /** The value of a string of decimal digits, most significant first. */
  function DigitsValue(s: string): nat
    requires AllDigits(s)
  {
    if s == [] then 0 else DigitsValue(s[..|s| - 1]) * 10 + DigitValue(s[|s| - 1])
  }

  /** `n.ToString()` for a non-negative integer: its decimal digits, without
      leading zeros. */
  function NatToString(n: nat): (s: string)
    ensures 1 <= |s| && AllDigits(s)
    ensures s[0] == '0' <==> n == 0
    ensures n == 0 ==> s == "0"
    decreases n
  {
    if n < 10 then [DigitChar(n)] else NatToString(n / 10) + [DigitChar(n % 10)]
  }

  /** Reading the digits back gives the number: `NatToString` loses nothing. */
  lemma {:induction false} NatToStringValue(n: nat)
    ensures DigitsValue(NatToString(n)) == n
    decreases n
  {
    if n >= 10 {
      var s := NatToString(n);
      NatToStringValue(n / 10);
      assert s[..|s| - 1] == NatToString(n / 10);
    }
  }

  lemma NatToStringInjective(a: nat, b: nat)
    ensures NatToString(a) == NatToString(b) <==> a == b
  {
    NatToStringValue(a);
    NatToStringValue(b);
  }

  /** `i.ToString()` with the negative sign "-". */
  function IntToString(i: int): (s: string)
    ensures |s| >= 1
    ensures s[0] == '-' <==> i < 0
    ensures i < 0 ==> s == "-" + NatToString(-i)
    ensures i >= 0 ==> s == NatToString(i)
  {
    if i < 0 then "-" + NatToString(-i) else NatToString(i)
  }

  lemma IntToStringInjective(a: int, b: int)
    ensures IntToString(a) == IntToString(b) <==> a == b
  {
    if IntToString(a) == IntToString(b) {
      if a < 0 && b < 0 {
        assert IntToString(a)[1..] == NatToString(-a);
        assert IntToString(b)[1..] == NatToString(-b);
        NatToStringInjective(-a, -b);
      } else if a >= 0 && b >= 0 {
        NatToStringInjective(a, b);
      }
    }
  }

  function Pow10(w: nat): (p: nat)
    ensures p >= 1
  {
    if w == 0 then 1 else 10 * Pow10(w - 1)
  }

  /** The last `w` decimal digits of `n`, zero-padded on the left: what the
      custom date format specifiers "yyyy", "MM", "dd", "HH", "mm" and "ss"
      write for a field below `10^w`. */
  function FixedDigits(n: nat, w: nat): (s: string)
    ensures |s| == w && AllDigits(s)
  {
    if w == 0 then "" else FixedDigits(n / 10, w - 1) + [DigitChar(n % 10)]
  }

  lemma {:induction false} FixedDigitsValue(n: nat, w: nat)
    requires n < Pow10(w)
    ensures DigitsValue(FixedDigits(n, w)) == n
  {
    if w > 0 {
      var q, d := n / 10, n % 10;
      var p, c := FixedDigits(q, w - 1), DigitChar(d);
      assert q < Pow10(w - 1) by { TenthBelow(n, Pow10(w - 1)); }
      FixedDigitsValue(q, w - 1);
      assert DigitsValue(FixedDigits(n, w)) == DigitsValue(p) * 10 + d by {
        assert FixedDigits(n, w) == p + [c];
        DigitsValueSnoc(p, c);
      }
    }
  }

  lemma DigitsValueSnoc(s: string, c: char)
    requires AllDigits(s) && IsDigit(c)
    ensures DigitsValue(s + [c]) == DigitsValue(s) * 10 + DigitValue(c)
  {
    assert (s + [c])[..|s|] == s;
  }

  lemma TenthBelow(n: nat, p: nat)
    requires n < 10 * p
    ensures n / 10 < p
  {
  }

  /** Parts joined with a separator character (the inverse of `Split`). */
  function Join(parts: seq<string>, sep: char): string
    requires |parts| >= 1
  {
    if |parts| == 1 then parts[0] else parts[0] + [sep] + Join(parts[1..], sep)
  }

  /** `s.Split(sep)` with `StringSplitOptions.None`: the maximal pieces of `s`
      between separators, empty pieces included. */
  function Split(s: string, sep: char): (parts: seq<string>)
    ensures |parts| >= 1
    ensures forall i :: 0 <= i < |parts| ==> sep !in parts[i]
    ensures Join(parts, sep) == s
    decreases |s|
  {
    if s == [] then [""]
    else
      var rest := Split(s[1..], sep);
      if s[0] == sep then
        assert ([""] + rest)[1..] == rest;
        assert s == [sep] + s[1..];
        [""] + rest
      else
        var parts := [[s[0]] + rest[0]] + rest[1..];
        assert parts[1..] == rest[1..];
        assert s == [s[0]] + s[1..];
        assert Join(parts, sep) == [s[0]] + Join(rest, sep);
        parts
  }

  /** Splitting text that starts with a separator-free piece. */
  lemma {:induction false} SplitAfterPiece(a: string, t: string, sep: char)
    requires sep !in a
    ensures Split(a + t, sep) == [a + Split(t, sep)[0]] + Split(t, sep)[1..]
    decreases |a|
  {
    if a != [] {
      assert (a + t)[1..] == a[1..] + t;
      assert (a + t)[0] == a[0];
      SplitAfterPiece(a[1..], t, sep);
      assert [a[0]] + (a[1..] + Split(t, sep)[0]) == a + Split(t, sep)[0];
    } else {
      var parts := Split(t, sep);
      assert a + t == t;
      assert a + parts[0] == parts[0];
      assert [parts[0]] + parts[1..] == parts;
    }
  }

  /** Splitting joined separator-free parts gives the parts back. */
  lemma {:induction false} SplitJoin(parts: seq<string>, sep: char)
    requires |parts| >= 1
    requires forall i :: 0 <= i < |parts| ==> sep !in parts[i]
    ensures Split(Join(parts, sep), sep) == parts
    decreases |parts|
  {
    if |parts| == 1 {
      SplitAfterPiece(parts[0], "", sep);
      assert parts[0] + "" == parts[0];
    } else {
      var tail := Join(parts[1..], sep);
      SplitJoin(parts[1..], sep);
      assert ([sep] + tail)[1..] == tail;
      assert Split([sep] + tail, sep) == [""] + parts[1..];
      assert parts[0] + [sep] + tail == parts[0] + ([sep] + tail);
      SplitAfterPiece(parts[0], [sep] + tail, sep);
      assert parts[0] + "" == parts[0];
    }
  }

  /** U+212A KELVIN SIGN, whose lower case is the ASCII letter 'k'. */
  const KelvinSign: char := 0x212A as char

  /** `Char.ToLower` on the ASCII letters and on the Kelvin sign. Every other
      character is kept; no other character lower-cases to an ASCII letter, so
      comparisons of a lower-cased text with an ASCII lower-case text are
      exact. */
  function LowerChar(c: char): char {
    if 'A' <= c <= 'Z' then (c as int + 32) as char
    else if c == KelvinSign then 'k'
    else c
  }

  /** `String.ToLower`, character by character: capital ASCII letters move
      down by 32, the Kelvin sign becomes 'k', every other character is kept,
      and no capital ASCII letter or Kelvin sign is left. */
  function ToLower(s: string): (r: string)
    ensures |r| == |s|
    ensures forall i :: 0 <= i < |s| ==> r[i] == LowerChar(s[i])
    ensures forall i :: 0 <= i < |s| && 'A' <= s[i] <= 'Z' ==> r[i] as int == s[i] as int + 32
    ensures forall i :: 0 <= i < |s| && s[i] == KelvinSign ==> r[i] == 'k'
    ensures forall i :: 0 <= i < |s| && !('A' <= s[i] <= 'Z') && s[i] != KelvinSign ==> r[i] == s[i]
    ensures forall i :: 0 <= i < |r| ==> !('A' <= r[i] <= 'Z') && r[i] != KelvinSign
  {
    seq(|s|, i requires 0 <= i < |s| => LowerChar(s[i]))
  }

  /** Lower-casing twice is lower-casing once. */
  lemma ToLowerIdempotent(s: string)
    ensures ToLower(ToLower(s)) == ToLower(s)
  {
  }

  /** The white space `NumberStyles.AllowLeadingWhite` and
      `AllowTrailingWhite` skip: U+0009 to U+000D and U+0020. */
  predicate IsWhiteSpace(c: char) {
    c == ' ' || '\t' <= c <= '\r'
  }

  /** `s` without its leading white space. */
  function TrimStart(s: string): (r: string)
    ensures |r| <= |s| && r == s[|s| - |r|..]
    ensures forall i :: 0 <= i < |s| - |r| ==> IsWhiteSpace(s[i])
    ensures r != [] ==> !IsWhiteSpace(r[0])
    decreases |s|
  {
    if s != [] && IsWhiteSpace(s[0]) then TrimStart(s[1..]) else s
  }

  /** `s` without its trailing white space. */
  function TrimEnd(s: string): (r: string)
    ensures |r| <= |s| && r == s[..|r|]
    ensures forall i :: |r| <= i < |s| ==> IsWhiteSpace(s[i])
    ensures r != [] ==> !IsWhiteSpace(r[|r| - 1])
    decreases |s|
  {
    if s != [] && IsWhiteSpace(s[|s| - 1]) then TrimEnd(s[..|s| - 1]) else s
  }

  /** `s` without its trailing NUL characters (U+0000), which
      `NumberStyles.Integer` parsing lets follow the trailing white space. */
  function TrimTrailingNuls(s: string): (r: string)
    ensures |r| <= |s| && r == s[..|r|]
    ensures forall i :: |r| <= i < |s| ==> s[i] == '\0'
    ensures r != [] ==> r[|r| - 1] != '\0'
    decreases |s|
  {
    if s != [] && s[|s| - 1] == '\0' then TrimTrailingNuls(s[..|s| - 1]) else s
  }

  /** A character followed, somewhere at or after it, by a character other
      than NUL survives `TrimTrailingNuls` in place. */
  lemma TrimTrailingNulsKeeps(s: string, i: nat, j: nat)
    requires i <= j < |s| && s[j] != '\0'
    ensures i < |TrimTrailingNuls(s)| && TrimTrailingNuls(s)[i] == s[i]
  {
    assert j < |TrimTrailingNuls(s)|;
  }

  /** Appending NUL characters does not change what `TrimTrailingNuls`
      leaves. */
  lemma {:induction false} TrimTrailingNulsAppend(s: string, nuls: string)
    requires forall k :: 0 <= k < |nuls| ==> nuls[k] == '\0'
    ensures TrimTrailingNuls(s + nuls) == TrimTrailingNuls(s)
    decreases |nuls|
  {
    if nuls == [] {
      assert s + nuls == s;
    } else {
      var w := s + nuls;
      var shorter := nuls[..|nuls| - 1];
      assert w[|w| - 1] == '\0';
      assert w[..|w| - 1] == s + shorter;
      TrimTrailingNulsAppend(s, shorter);
    }
  }

  /** A character that is not white space survives `TrimStart`, shifted
      to index `j`. */
  lemma TrimStartKeeps(s: string, i: nat) returns (j: nat)
    requires i < |s| && !IsWhiteSpace(s[i])
    ensures j < |TrimStart(s)| && TrimStart(s)[j] == s[i]
  {
    var u := TrimStart(s);
    var lead := |s| - |u|;
    assert lead <= i;
    j := i - lead;
    assert u[j] == s[i];
  }

  /** A character that is not white space survives `TrimEnd` in place. */
  lemma TrimEndKeeps(s: string, i: nat) returns (j: nat)
    requires i < |s| && !IsWhiteSpace(s[i])
    ensures j < |TrimEnd(s)| && TrimEnd(s)[j] == s[i]
  {
    j := i;
    assert i < |TrimEnd(s)|;
  }

  /** Where each of five concatenated pieces sits. */
  lemma FiveLayout(a: string, b: string, c: string, d: string, e: string)
    ensures var s := a + b + c + d + e;
            var i, j, k := |a| + |b|, |a| + |b| + |c|, |a| + |b| + |c| + |d|;
            s[..|a|] == a && s[|a|..i] == b && s[i..j] == c && s[j..k] == d && s[k..] == e
  {
    var s := a + b + c + d + e;
    var p := a + b + c + d;
    assert s[..|p|] == p && s[|p|..] == e;
    var q := a + b + c;
    assert p[..|q|] == q && p[|q|..] == d;
    assert s[|q|..|p|] == p[|q|..];
    var r := a + b;
    assert q[..|r|] == r && q[|r|..] == c;
    assert s[|r|..|q|] == q[|r|..];
    assert s[..|a|] == r[..|a|] && s[|a|..|r|] == r[|a|..];
  }
}

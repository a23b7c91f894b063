/** The serial reply parser (`SerialDeviceResultParser`): the controller
    answers every command with one line of text, which these functions turn
    into values. A thrown `FormatException` is an `Err` carrying its
    message; a null reply is `None`. */
module Parser {
  import opened Wrappers
  import opened Text
  import opened Models

  /** How string interpolation shows a possibly-null string. */
  function Shown(msg: Option<string>): string {
    if msg.Some? then msg.value else ""
  }

  /** `ParseBool(string)`: "1" is true, "0" is false, anything else throws. */
  function ParseBool(msg: Option<string>): (r: Result<bool>)
    ensures r == Ok(true) <==> msg == Some("1")
    ensures r == Ok(false) <==> msg == Some("0")
    ensures r.Err? ==> r.message == "Can't parse " + Shown(msg) + " to bool!"
  {
    if msg == Some("1") then Ok(true)
    else if msg == Some("0") then Ok(false)
    else Err("Can't parse " + Shown(msg) + " to bool!")
  }

  /** `ParseBool(bool)`: the text the controller uses for a flag. Parsing it
      back gives the flag. */
  function FormatBool(boolean: bool): (s: string)
    ensures ParseBool(Some(s)) == Ok(boolean)
    ensures s == "1" || s == "0"
  {
    if boolean then "1" else "0"
  }

  /** Formatting a parsed flag gives the text back. */
  lemma FormatParsedBool(s: string)
    requires ParseBool(Some(s)).Ok?
    ensures FormatBool(ParseBool(Some(s)).value) == s
  {
  }

  /** `ParseFloat`: `float.TryParse` is foreign numerics and comes in as
      `tryParse`; a refused reply throws a `FormatException`. */
  function ParseFloat(tryParse: string -> Option<real>, msg: Option<string>): (r: Result<real>)
    ensures r.Ok? <==> msg.Some? && tryParse(msg.value).Some?
    ensures r.Ok? ==> r.value == tryParse(msg.value).value
    ensures r.Err? ==> r.message == "Can't parse " + Shown(msg) + " to float!"
  {
    if msg.Some? && tryParse(msg.value).Some? then Ok(tryParse(msg.value).value)
    else Err("Can't parse " + Shown(msg) + " to float!")
  }

  /** The value of an optional '+' or '-' followed by one or more decimal
      digits, or `None` for any other text. */
  function SignedValue(t: string): (r: Option<int>)
  {
    if t == [] then None
    else
      var digits := if t[0] == '-' || t[0] == '+' then t[1..] else t;
      if digits == [] || !AllDigits(digits) then None
      else if t[0] == '-' then Some(-(DigitsValue(digits) as int))
      else Some(DigitsValue(digits) as int)
  }

  /** The part of a reply that `int.TryParse` reads as a numeral: without the
      NUL characters it ignores at the very end, then without the white space
      around it. */
  function NumberText(s: string): string {
    TrimEnd(TrimStart(TrimTrailingNuls(s)))
  }

  /** `int.TryParse` with `NumberStyles.Integer` and invariant signs:
      optional white space, an optional '+' or '-', one or more decimal
      digits, optional white space, optional NUL characters, and a value in
      the `Int32` range. */
  function TryParseInt(s: string): (r: Option<int32>)
  {
    var v := SignedValue(NumberText(s));
    if v.Some? && -0x8000_0000 <= v.value < 0x8000_0000 then Some(v.value as int32) else None
  }

  /** `ParseInt`: the value of a decimal integer reply, or a
      `FormatException` for anything `int.TryParse` refuses. */
  function ParseInt(msg: Option<string>): (r: Result<int32>)
    ensures r.Ok? <==> msg.Some? && TryParseInt(msg.value).Some?
    ensures r.Ok? ==> r.value == TryParseInt(msg.value).value
    ensures r.Err? ==> r.message == "Can't parse " + Shown(msg) + " to int!"
  {
    if msg.Some? && TryParseInt(msg.value).Some? then Ok(TryParseInt(msg.value).value)
    else Err("Can't parse " + Shown(msg) + " to int!")
  }

  /** A text that starts and ends with something other than white space,
      and ends with something other than NUL, has nothing to trim. */
  lemma TrimmedNumeral(s: string)
    requires s != [] && !IsWhiteSpace(s[0]) && !IsWhiteSpace(s[|s| - 1]) && s[|s| - 1] != '\0'
    ensures NumberText(s) == s
  {
    assert TrimTrailingNuls(s) == s;
    assert TrimStart(s) == s;
  }

  /** A numeral with nothing to trim parses to its signed value. */
  lemma TryParseTrimmed(s: string, n: int32)
    requires NumberText(s) == s && SignedValue(s) == Some(n as int)
    ensures TryParseInt(s) == Some(n)
  {
  }

  lemma TryParseNatText(n: int32)
    requires n >= 0
    ensures TryParseInt(NatToString(n as int)) == Some(n)
  {
    var s := NatToString(n as int);
    assert IsDigit(s[0]) && IsDigit(s[|s| - 1]);
    TrimmedNumeral(s);
    NatToStringValue(n as int);
    assert SignedValue(s) == Some(n as int);
    TryParseTrimmed(s, n);
  }

  lemma TryParseNegativeText(n: int32, s: string)
    requires n < 0 && s == IntToString(n as int)
    ensures TryParseInt(s) == Some(n)
  {
    var m: nat := -(n as int);
    var digits := NatToString(m);
    assert s[1..] == digits;
    assert NumberText(s) == s by {
      assert IsDigit(s[|s| - 1]);
      TrimmedNumeral(s);
    }
    assert SignedValue(s) == Some(n as int) by {
      NatToStringValue(m);
    }
    TryParseTrimmed(s, n);
  }

  /** Every `Int32` written by `ToString` parses back to itself. */
  lemma ParseIntOfIntToString(n: int32)
    ensures ParseInt(Some(IntToString(n))) == Ok(n)
  {
    if n < 0 {
      TryParseNegativeText(n, IntToString(n));
    } else {
      TryParseNatText(n);
    }
  }

  /** A reply is accepted only if, before its trailing NUL characters, it is
      made of white space, signs and digits; in particular a version text
      such as "1.0.0" is refused. `j` marks a later character that is not
      NUL, so that `s[i]` is not one of the trailing NULs. */
  lemma ParseIntAcceptsOnlyNumerals(s: string, i: nat, j: nat)
    requires i <= j < |s| && s[j] != '\0'
    requires !IsWhiteSpace(s[i]) && !IsDigit(s[i]) && s[i] != '-' && s[i] != '+'
    ensures ParseInt(Some(s)).Err?
  {
    TrimTrailingNulsKeeps(s, i, j);
    var z := TrimTrailingNuls(s);
    var u := TrimStart(z);
    var iu := TrimStartKeeps(z, i);
    var it := TrimEndKeeps(u, iu);
    SignedValueRejects(TrimEnd(u), it);
  }

  /** A character that is neither a digit nor a sign makes a text no
      numeral. */
  lemma SignedValueRejects(t: string, j: nat)
    requires j < |t| && !IsDigit(t[j]) && t[j] != '-' && t[j] != '+'
    ensures SignedValue(t).None?
  {
    if t[0] == '-' || t[0] == '+' {
      assert t[1..][j - 1] == t[j];
    }
  }

  /** `t` is a numeral written as `sign` and then `digits`: an optional '+'
      or '-' followed by one or more decimal digits. */
  predicate Numeral(t: string, sign: string, digits: string) {
    (sign == "" || sign == "+" || sign == "-") && t == sign + digits && digits != [] && AllDigits(digits)
  }

  /** The value a numeral denotes. */
  function NumeralValue(sign: string, digits: string): int
    requires AllDigits(digits)
  {
    if sign == "-" then -(DigitsValue(digits) as int) else DigitsValue(digits) as int
  }

  lemma NumeralSignedValue(t: string, sign: string, digits: string)
    requires Numeral(t, sign, digits)
    ensures SignedValue(t) == Some(NumeralValue(sign, digits))
  {
    if sign == "" {
      assert t == digits && IsDigit(t[0]);
    } else {
      assert t[0] == sign[0] && t[1..] == digits;
    }
  }

  lemma SignedValueNumeral(t: string) returns (sign: string, digits: string)
    requires SignedValue(t).Some?
    ensures Numeral(t, sign, digits) && SignedValue(t) == Some(NumeralValue(sign, digits))
  {
    if t[0] == '-' || t[0] == '+' {
      sign, digits := [t[0]], t[1..];
    } else {
      sign, digits := "", t;
    }
    assert t == sign + digits;
  }

  /** `int.TryParse` accepts a reply exactly when, without its surrounding
      white space, it is a numeral whose value lies in the `Int32` range, and
      then that value is the result. */
  lemma ParseIntAcceptsExactly(s: string, v: int32)
    ensures ParseInt(Some(s)).Ok? <==>
      exists sign, digits :: Numeral(NumberText(s), sign, digits) &&
        -0x8000_0000 <= NumeralValue(sign, digits) < 0x8000_0000
    ensures ParseInt(Some(s)) == Ok(v) <==>
      exists sign, digits :: Numeral(NumberText(s), sign, digits) && NumeralValue(sign, digits) == v as int
  {
    var t := NumberText(s);
    forall sign, digits | Numeral(t, sign, digits)
      ensures SignedValue(t) == Some(NumeralValue(sign, digits))
    {
      NumeralSignedValue(t, sign, digits);
    }
    if SignedValue(t).Some? {
      var sign, digits := SignedValueNumeral(t);
    }
  }

  /** A reply without a single digit is refused: "", blank text and a sign
      with only white space around it among them. */
  lemma ParseIntNeedsADigit(s: string)
    requires forall i :: 0 <= i < |s| ==> !IsDigit(s[i])
    ensures ParseInt(Some(s)).Err?
  {
    var z := TrimTrailingNuls(s);
    var u := TrimStart(z);
    var t := TrimEnd(u);
    NoDigitInSlice(s, 0, |z|);
    NoDigitInSlice(z, |z| - |u|, |z|);
    NoDigitInSlice(u, 0, |t|);
    SignedValueNeedsADigit(t);
  }

  lemma NoDigitInSlice(s: string, lo: nat, hi: nat)
    requires lo <= hi <= |s|
    requires forall i :: 0 <= i < |s| ==> !IsDigit(s[i])
    ensures forall i :: 0 <= i < hi - lo ==> !IsDigit(s[lo..hi][i])
  {
  }

  lemma SignedValueNeedsADigit(t: string)
    requires forall i :: 0 <= i < |t| ==> !IsDigit(t[i])
    ensures SignedValue(t).None?
  {
    if |t| >= 2 {
      assert t[1..][0] == t[1];
    }
  }

  /** NUL characters at the end of a reply change nothing: "5\0" and
      "5 \0" read as "5". */
  lemma ParseIntIgnoresTrailingNuls(s: string, nuls: string)
    requires forall k :: 0 <= k < |nuls| ==> nuls[k] == '\0'
    ensures ParseInt(Some(s + nuls)).Ok? <==> ParseInt(Some(s)).Ok?
    ensures ParseInt(Some(s + nuls)).Ok? ==> ParseInt(Some(s + nuls)).value == ParseInt(Some(s)).value
  {
    TryParseIntIgnoresNuls(s, nuls);
  }

  /** A NUL before trailing white space is no trailing NUL: "5\0 " is
      refused. */
  lemma ParseIntRefusesNulBeforeWhiteSpace()
    ensures ParseInt(Some("5\0 ")).Err?
  {
    ParseIntAcceptsOnlyNumerals("5\0 ", 1, 2);
  }

  /** `parts` with `x` appended to its last piece. */
  function WithLast(parts: seq<string>, x: string): (r: seq<string>)
    requires |parts| >= 1
  {
    parts[..|parts| - 1] + [parts[|parts| - 1] + x]
  }

  lemma {:induction false} JoinWithLast(parts: seq<string>, sep: char, x: string)
    requires |parts| >= 1
    ensures Join(WithLast(parts, x), sep) == Join(parts, sep) + x
    decreases |parts|
  {
    if |parts| > 1 {
      var w := WithLast(parts, x);
      assert w[0] == parts[0] && w[1..] == WithLast(parts[1..], x);
      JoinWithLast(parts[1..], sep, x);
    }
  }

  /** `ParseComponents` depends only on how each part parses. */
  lemma {:induction false} ParseComponentsPointwise(a: seq<string>, b: seq<string>)
    requires |a| == |b|
    requires forall i :: 0 <= i < |a| ==> TryParseInt(a[i]) == TryParseInt(b[i])
    ensures ParseComponents(a) == ParseComponents(b)
    decreases |a|
  {
    if a != [] {
      ParseComponentsPointwise(a[1..], b[1..]);
    }
  }

  lemma NoDotInPadded(digits: string, nuls: string)
    requires AllDigits(digits)
    requires forall k :: 0 <= k < |nuls| ==> nuls[k] == '\0'
    ensures '.' !in digits + nuls
  {
    forall k | 0 <= k < |digits + nuls|
      ensures (digits + nuls)[k] != '.'
    {
      if k < |digits| {
        assert (digits + nuls)[k] == digits[k];
      } else {
        assert (digits + nuls)[k] == nuls[k - |digits|];
      }
    }
  }

  lemma TryParseIntIgnoresNuls(s: string, nuls: string)
    requires forall k :: 0 <= k < |nuls| ==> nuls[k] == '\0'
    ensures TryParseInt(s + nuls) == TryParseInt(s)
  {
    TrimTrailingNulsAppend(s, nuls);
    assert NumberText(s + nuls) == NumberText(s);
  }

  /** Appending NUL characters to the last component text keeps every part
      free of dots and parsing to the same component. */
  lemma PaddedComponentTexts(v: Version, nuls: string)
    requires forall k :: 0 <= k < |nuls| ==> nuls[k] == '\0'
    ensures |WithLast(ComponentTexts(v), nuls)| == |v|
    ensures forall i :: 0 <= i < |v| ==> '.' !in WithLast(ComponentTexts(v), nuls)[i]
    ensures ParseComponents(WithLast(ComponentTexts(v), nuls)) == Some(v)
  {
    var texts := ComponentTexts(v);
    var padded := WithLast(texts, nuls);
    var last := |texts| - 1;
    forall i | 0 <= i < |padded|
      ensures '.' !in padded[i] && TryParseInt(padded[i]) == TryParseInt(texts[i])
    {
      if i < last {
        assert padded[i] == texts[i] && AllDigits(texts[i]);
      } else {
        assert padded[i] == texts[i] + nuls;
        NoDotInPadded(texts[i], nuls);
        TryParseIntIgnoresNuls(texts[i], nuls);
      }
    }
    ParseComponentsPointwise(padded, texts);
    ParseComponentTexts(v);
  }

  /** `Version.Parse` reads each component with the same number parser, so
      NUL characters after a version text are ignored too: "1.2\0" parses
      as 1.2. */
  lemma ParseVersionIgnoresTrailingNuls(v: Version, nuls: string)
    requires forall k :: 0 <= k < |nuls| ==> nuls[k] == '\0'
    ensures ParseVersion(Some(VersionToString(v) + nuls)) == Some(v)
  {
    var padded := WithLast(ComponentTexts(v), nuls);
    JoinWithLast(ComponentTexts(v), '.', nuls);
    PaddedComponentTexts(v, nuls);
    SplitJoin(padded, '.');
    assert Split(VersionToString(v) + nuls, '.') == padded;
  }

  /** `ParseCommand`: a reply acknowledges a command exactly when it lower-
      cases to "ok". Null is no acknowledgement; nothing throws. */
  function ParseCommand(msg: Option<string>): (r: bool)
  {
    msg.Some? && ToLower(msg.value) == "ok"
  }

  /** The acknowledgements are exactly the two-character replies "ok" in
      any letter case, the Kelvin sign counting as a capital 'K'. */
  lemma ParseCommandAccepts(msg: Option<string>)
    ensures ParseCommand(msg) <==>
      msg.Some? && |msg.value| == 2 &&
      (msg.value[0] == 'o' || msg.value[0] == 'O') &&
      (msg.value[1] == 'k' || msg.value[1] == 'K' || msg.value[1] == KelvinSign)
  {
    if msg.Some? && |msg.value| == 2 {
      var l := ToLower(msg.value);
      assert l == [LowerChar(msg.value[0]), LowerChar(msg.value[1])];
      assert l == "ok" <==> l[0] == 'o' && l[1] == 'k';
    }
  }

  /** `Version.Parse` on the components between the dots. */
  function ParseComponents(parts: seq<string>): (r: Option<seq<Component>>)
    ensures r.Some? ==> |r.value| == |parts|
  {
    if parts == [] then Some([])
    else
      var head := TryParseInt(parts[0]);
      var tail := ParseComponents(parts[1..]);
      if head.Some? && head.value >= 0 && tail.Some? then Some([head.value as Component] + tail.value)
      else None
  }

  /** `Version.Parse`: two to four dot-separated components, each an
      `Int32` as `int.TryParse` reads it and not negative. `None` stands for
      the exception it throws otherwise (null text included). */
  function ParseVersion(version: Option<string>): (r: Option<Version>)
  {
    if version.None? then None
    else
      var parts := Split(version.value, '.');
      if 2 <= |parts| <= 4 then
        var components := ParseComponents(parts);
        if components.Some? then Some(components.value) else None
      else None
  }

  /** `Version.ToString()`: the defined components joined by dots. */
  function VersionToString(v: Version): (s: string)
  {
    Join(ComponentTexts(v), '.')
  }

  function ComponentTexts(v: seq<Component>): (texts: seq<string>)
    ensures |texts| == |v|
    ensures forall i :: 0 <= i < |v| ==> texts[i] == NatToString(v[i])
  {
    seq(|v|, i requires 0 <= i < |v| => NatToString(v[i]))
  }

  lemma {:induction false} ParseComponentTexts(v: seq<Component>)
    ensures ParseComponents(ComponentTexts(v)) == Some(v)
    decreases |v|
  {
    if v != [] {
      var texts := ComponentTexts(v);
      assert texts[1..] == ComponentTexts(v[1..]);
      ParseComponentTexts(v[1..]);
      ParseIntOfIntToString(v[0]);
      assert [v[0]] + v[1..] == v;
    }
  }

  /** A version written out by `ToString` parses back to itself. */
  lemma ParseVersionOfToString(v: Version)
    ensures ParseVersion(Some(VersionToString(v))) == Some(v)
  {
    var texts := ComponentTexts(v);
    forall i | 0 <= i < |texts|
      ensures '.' !in texts[i]
    {
      assert AllDigits(texts[i]);
    }
    SplitJoin(texts, '.');
    ParseComponentTexts(v);
  }

  /** Two versions are equal exactly when their texts are the same. */
  lemma VersionEqualityIsTextual(a: Version, b: Version)
    ensures a == b <==> VersionToString(a) == VersionToString(b)
  {
    ParseVersionOfToString(a);
    ParseVersionOfToString(b);
  }
}

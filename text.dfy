/** The string primitives the program relies on: str.strip, str.isdigit
    and int() applied to a form field. */
module Text {
  import opened Base

  /** The characters Python's str.strip() removes when given no argument
      (those for which str.isspace() holds). */
  predicate IsSpace(c: char)
  {
    || c == ' '
    || ('\t' <= c <= '\r')
    || ('\U{1C}' <= c <= '\U{1F}')
    || c == '\U{85}' || c == '\U{A0}' || c == '\U{1680}'
    || ('\U{2000}' <= c <= '\U{200A}')
    || c == '\U{2028}' || c == '\U{2029}' || c == '\U{202F}' || c == '\U{205F}' || c == '\U{3000}'
  }

  /** str.isdigit() on one character, restricted to ASCII digits. */
  predicate IsDigit(c: char)
  {
    '0' <= c <= '9'
  }

  predicate AllDigits(s: string)
  {
    forall i :: 0 <= i < |s| ==> IsDigit(s[i])
  }

  /** s.lstrip() */
  function StripLeft(s: string): string
  {
    if s != [] && IsSpace(s[0]) then StripLeft(s[1..]) else s
  }

  /** s.rstrip() */
  function StripRight(s: string): string
  {
    if s != [] && IsSpace(s[|s| - 1]) then StripRight(s[..|s| - 1]) else s
  }

  /** s.strip() */
  function Strip(s: string): string
  {
    StripRight(StripLeft(s))
  }

  /** s.lstrip() is the suffix left after the longest all-space prefix. */
  lemma {:induction false} StripLeftSpec(s: string)
    ensures var r := StripLeft(s);
      && |r| <= |s| && r == s[|s| - |r|..]
      && (forall i :: 0 <= i < |s| - |r| ==> IsSpace(s[i]))
      && (r == [] || !IsSpace(r[0]))
    decreases |s|
  {
    if s != [] && IsSpace(s[0]) {
      StripLeftSpec(s[1..]);
    }
  }

  /** s.rstrip() is the prefix left after the longest all-space suffix. */
  lemma {:induction false} StripRightSpec(s: string)
    ensures var r := StripRight(s);
      && |r| <= |s| && r == s[..|r|]
      && (forall i :: |r| <= i < |s| ==> IsSpace(s[i]))
      && (r == [] || !IsSpace(r[|r| - 1]))
    decreases |s|
  {
    if s != [] && IsSpace(s[|s| - 1]) {
      StripRightSpec(s[..|s| - 1]);
    }
  }

  /** s.strip() is s without its leading and trailing white space: the
      result is the slice s[a..a+|r|], everything outside it is space, it
      neither starts nor ends with a space, and it is empty exactly when
      s is all space. */
  lemma StripSpec(s: string)
    ensures var r, a := Strip(s), |s| - |StripLeft(s)|;
      && 0 <= a && a + |r| <= |s|
      && r == s[a..a + |r|]
      && (forall i :: 0 <= i < a ==> IsSpace(s[i]))
      && (forall i :: a + |r| <= i < |s| ==> IsSpace(s[i]))
      && (r != [] ==> !IsSpace(r[0]) && !IsSpace(r[|r| - 1]))
      && (r == [] <==> forall i :: 0 <= i < |s| ==> IsSpace(s[i]))
  {
    var l := StripLeft(s);
    StripLeftSpec(s);
    var a := |s| - |l|;
    var r := StripRight(l);
    StripRightSpec(l);
    assert l == s[a..];
    assert r == s[a..a + |r|];
    forall i | a + |r| <= i < |s|
      ensures IsSpace(s[i])
    {
      assert s[i] == l[i - a];
    }
    if l != [] {
      assert r != [] && r[0] == l[0];
    }
    if r != [] {
      assert s[a] == r[0];
    }
  }

  /** A string that is already stripped is left as it is. */
  lemma StripKeepsTrimmed(s: string)
    requires s != [] && !IsSpace(s[0]) && !IsSpace(s[|s| - 1])
    ensures Strip(s) == s
  {
  }

  /** The text of the digits int() accepts: ASCII digits, where a single
      underscore may stand between two digits. */
  predicate DigitGroups(s: string)
  {
    && |s| > 0
    && IsDigit(s[0])
    && IsDigit(s[|s| - 1])
    && (forall i :: 0 <= i < |s| ==> IsDigit(s[i]) || s[i] == '_')
    && (forall i :: 0 <= i < |s| - 1 && s[i] == '_' ==> s[i + 1] != '_')
  }

  /** The value of a digit string, underscores skipped. */
  function DigitsValue(s: string): nat
  {
    if s == [] then 0
    else if IsDigit(s[|s| - 1]) then DigitsValue(s[..|s| - 1]) * 10 + (s[|s| - 1] as int - '0' as int)
    else DigitsValue(s[..|s| - 1])
  }

  /** The white space int() skips around a number: ASCII ' ' and '\t'..'\r',
      and every non-ASCII character str.isspace() accepts. The ASCII
      separators U+001C..U+001F are white space to str.strip() but not
      to int(). */
  predicate IntSpace(c: char)
  {
    IsSpace(c) && !('\U{1C}' <= c <= '\U{1F}')
  }

  /** s with the white space int() skips removed from both ends. */
  function IntTrim(s: string): string
  {
    if s != [] && IntSpace(s[0]) then IntTrim(s[1..])
    else if s != [] && IntSpace(s[|s| - 1]) then IntTrim(s[..|s| - 1])
    else s
  }

  /** int(s) for a str s: Some(value), or None where Python raises
      ValueError. Surrounding white space (IntSpace) and one sign are
      accepted. */
  function ParseInt(s: string): Option<int>
  {
    var t := IntTrim(s);
    if t != [] && (t[0] == '+' || t[0] == '-') then
      if DigitGroups(t[1..]) then
        Some(if t[0] == '-' then -(DigitsValue(t[1..]) as int) else DigitsValue(t[1..]))
      else None
    else if DigitGroups(t) then Some(DigitsValue(t))
    else None
  }

  function DigitChar(d: nat): char
    requires d < 10
  {
    ('0' as int + d) as char
  }

  /** str(n) for a natural number. */
  function Decimal(n: nat): (s: string)
    decreases n
  {
    if n < 10 then [DigitChar(n)] else Decimal(n / 10) + [DigitChar(n % 10)]
  }

  /** str(i) for an integer. */
  function IntToString(i: int): string
  {
    if i < 0 then "-" + Decimal(-i) else Decimal(i)
  }

  /** str(n) is a non-empty string of ASCII digits whose value is n. */
  lemma {:induction false} DecimalValue(n: nat)
    ensures |Decimal(n)| > 0 && AllDigits(Decimal(n))
    ensures DigitsValue(Decimal(n)) == n
    decreases n
  {
    if n >= 10 {
      DecimalValue(n / 10);
      var s := Decimal(n);
      assert s[..|s| - 1] == Decimal(n / 10);
    }
  }

  /** int(str(i)) == i: the decimal text of any integer parses back to it. */
  lemma ParseIntRoundTrip(i: int)
    ensures ParseInt(IntToString(i)) == Some(i)
  {
    var d := Decimal(if i < 0 then -i else i);
    DecimalValue(if i < 0 then -i else i);
    var s := IntToString(i);
    assert s[|s| - 1] == d[|d| - 1];
    assert IntTrim(s) == s;
    if i < 0 {
      assert s[1..] == d;
    }
  }

  /** An information separator next to the number: str.strip() removes
      it, int() refuses the text. */
  lemma SeparatorRefusedByInt()
    ensures Strip("\U{1C}5") == "5"
    ensures ParseInt("\U{1C}5").None? && ParseInt("5\U{1F}").None?
    ensures ParseInt(" 5\U{A0}") == Some(5)
  {
    assert "\U{1C}5"[1..] == "5";
    assert "5"[1..] == [];
    assert !DigitGroups("\U{1C}5");
    assert !DigitGroups("5\U{1F}");
    var t := " 5\U{A0}";
    assert t[1..] == "5\U{A0}" && "5\U{A0}"[..1] == "5";
    assert DigitsValue("5") == 5 by {
      assert "5"[..0] == [];
    }
  }
}

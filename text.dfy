/**
 * The Python string built-ins the scripts rely on: `str.split` and `str.join`
 * with a one-character separator, `str.strip` with a set of characters,
 * `str()` of an integer and `int()` of a string.
 */
module Text {
  import opened Wrappers

  /** `sep.join(fields)`: the fields with one separator between neighbours. */
  function Join(fields: seq<string>, sep: char): string
    decreases |fields|
  {
    if fields == [] then ""
    else if |fields| == 1 then fields[0]
    else fields[0] + [sep] + Join(fields[1..], sep)
  }

  /**
   * `s.split(sep)`: the maximal runs of text between separators, so there is
   * always at least one field (`"".split(sep) == [""]`) and no field holds `sep`.
   */
  function Split(s: string, sep: char): (fields: seq<string>)
    ensures |fields| >= 1
    ensures forall i | 0 <= i < |fields| :: sep !in fields[i]
    decreases |s|
  {
    if s == [] then [""]
    else
      var rest := Split(s[1..], sep);
      if s[0] == sep then [""] + rest
      else [[s[0]] + rest[0]] + rest[1..]
  }

  /** A join starts with its first field and ends with its last one. */
  lemma {:induction false} JoinEnds(fields: seq<string>, sep: char)
    requires |fields| >= 1
    ensures var s, first, last := Join(fields, sep), fields[0], fields[|fields| - 1];
      && |first| <= |s| && s[..|first|] == first
      && |last| <= |s| && s[|s| - |last|..] == last
    decreases |fields|
  {
    if |fields| > 1 {
      var rest := fields[1..];
      JoinEnds(rest, sep);
      var s, t := Join(fields, sep), Join(rest, sep);
      assert s == fields[0] + [sep] + t;
      assert rest[|rest| - 1] == fields[|fields| - 1];
      assert s[|s| - |fields[|fields| - 1]|..] == t[|t| - |fields[|fields| - 1]|..];
    }
  }

  /** Joining the fields of a split gives back the text that was split. */
  lemma {:induction false} JoinSplit(s: string, sep: char)
    ensures Join(Split(s, sep), sep) == s
    decreases |s|
  {
    if s != [] {
      var rest := Split(s[1..], sep);
      JoinSplit(s[1..], sep);
      if s[0] == sep {
        assert ([""] + rest)[1..] == rest;
      } else if |rest| == 1 {
        assert Join(rest, sep) == rest[0];
      } else {
        var fields := [[s[0]] + rest[0]] + rest[1..];
        assert fields[1..] == rest[1..];
        assert Join(rest, sep) == rest[0] + [sep] + Join(rest[1..], sep);
      }
    }
  }

  /** Text free of the separator becomes part of the first field of what follows it. */
  lemma {:induction false} SplitNoSeparator(a: string, t: string, sep: char)
    requires sep !in a
    ensures Split(a + t, sep) == [a + Split(t, sep)[0]] + Split(t, sep)[1..]
    decreases |a|
  {
    if a == [] {
      var f := Split(t, sep);
      assert a + t == t && a + f[0] == f[0];
      assert [f[0]] + f[1..] == f;
    } else {
      assert (a + t)[0] == a[0];
      assert (a + t)[1..] == a[1..] + t;
      SplitNoSeparator(a[1..], t, sep);
      assert [a[0]] + (a[1..] + Split(t, sep)[0]) == a + Split(t, sep)[0];
    }
  }

  /** Splitting joined fields gives back the fields, when none of them holds the separator. */
  lemma {:induction false} SplitJoin(fields: seq<string>, sep: char)
    requires |fields| >= 1
    requires forall i | 0 <= i < |fields| :: sep !in fields[i]
    ensures Split(Join(fields, sep), sep) == fields
    decreases |fields|
  {
    var a := fields[0];
    if |fields| == 1 {
      SplitNoSeparator(a, "", sep);
      assert a + "" == a;
    } else {
      var j := Join(fields[1..], sep);
      assert Join(fields, sep) == a + ([sep] + j);
      SplitNoSeparator(a, [sep] + j, sep);
      assert ([sep] + j)[1..] == j;
      SplitJoin(fields[1..], sep);
      assert Split([sep] + j, sep) == [""] + fields[1..];
      assert a + "" == a;
    }
  }

  /** `n` copies of `c`. */
  function Repeat(c: char, n: nat): string
  {
    seq(n, _ => c)
  }

  /** `s.lstrip(chars)`. */
  function LStrip(s: string, chars: set<char>): string
    decreases |s|
  {
    if s != [] && s[0] in chars then LStrip(s[1..], chars) else s
  }

  /** `lstrip` removes a prefix made of `chars` and stops at the first character not in `chars`. */
  lemma {:induction false} LStripRemovesPrefix(s: string, chars: set<char>)
    ensures var r := LStrip(s, chars);
      && |r| <= |s| && r == s[|s| - |r|..]
      && (r == [] || r[0] !in chars)
      && forall i | 0 <= i < |s| - |r| :: s[i] in chars
    decreases |s|
  {
    if s != [] && s[0] in chars {
      LStripRemovesPrefix(s[1..], chars);
    }
  }

  /** `s.rstrip(chars)`. */
  function RStrip(s: string, chars: set<char>): string
    decreases |s|
  {
    if s != [] && s[|s| - 1] in chars then RStrip(s[..|s| - 1], chars) else s
  }

  /** `rstrip` removes a suffix made of `chars` and stops at the last character not in `chars`. */
  lemma {:induction false} RStripRemovesSuffix(s: string, chars: set<char>)
    ensures var r := RStrip(s, chars);
      && |r| <= |s| && r == s[..|r|]
      && (r == [] || r[|r| - 1] !in chars)
      && forall i | |r| <= i < |s| :: s[i] in chars
    decreases |s|
  {
    if s != [] && s[|s| - 1] in chars {
      RStripRemovesSuffix(s[..|s| - 1], chars);
    }
  }

  /** `s.strip(chars)`: every leading and every trailing character in `chars` removed. */
  function Strip(s: string, chars: set<char>): string
  {
    RStrip(LStrip(s, chars), chars)
  }

  /** Text that neither starts nor ends with a character in `chars` is left as it is. */
  lemma StripUnchanged(s: string, chars: set<char>)
    requires s != [] ==> s[0] !in chars && s[|s| - 1] !in chars
    ensures Strip(s, chars) == s
  {
  }

  /** A leading run of a stripped character disappears entirely. */
  lemma {:induction false} LStripRun(c: char, k: nat, s: string, chars: set<char>)
    requires c in chars
    ensures LStrip(Repeat(c, k) + s, chars) == LStrip(s, chars)
    decreases k
  {
    if k > 0 {
      var t := Repeat(c, k) + s;
      assert t[0] == c && t[1..] == Repeat(c, k - 1) + s;
      assert LStrip(t, chars) == LStrip(t[1..], chars);
      LStripRun(c, k - 1, s, chars);
    } else {
      assert Repeat(c, k) + s == s;
    }
  }

  /**
   * `s.strip(chars)` is the slice of `s` left once a prefix and a suffix made
   * only of `chars` are removed; what is left is empty or starts and ends with
   * a character not in `chars`.
   */
  lemma StripSlice(s: string, chars: set<char>) returns (i: nat)
    ensures var r := Strip(s, chars);
      && i + |r| <= |s| && r == s[i..i + |r|]
      && (forall k | 0 <= k < i :: s[k] in chars)
      && (forall k | i + |r| <= k < |s| :: s[k] in chars)
      && (r != [] ==> r[0] !in chars && r[|r| - 1] !in chars)
  {
    var l := LStrip(s, chars);
    var r := Strip(s, chars);
    LStripRemovesPrefix(s, chars);
    RStripRemovesSuffix(l, chars);
    i := |s| - |l|;
    assert r == l[..|r|];
    assert s[i..i + |r|] == l[..|r|];
    forall k | i + |r| <= k < |s| ensures s[k] in chars {
      assert s[k] == l[k - i];
    }
    if r != [] {
      assert r[0] == l[0];
    }
  }

  /** Text that neither starts nor ends with a stripped character loses exactly a leading run of one. */
  lemma StripLeadingRun(c: char, k: nat, s: string, chars: set<char>)
    requires c in chars
    requires s != [] && s[0] !in chars && s[|s| - 1] !in chars
    ensures Strip(Repeat(c, k) + s, chars) == s
  {
    LStripRun(c, k, s, chars);
    StripUnchanged(s, chars);
  }

  predicate IsDigit(c: char) {
    '0' <= c <= '9'
  }

  predicate AllDigits(s: string) {
    forall i | 0 <= i < |s| :: IsDigit(s[i])
  }

  function DigitValue(c: char): nat
    requires IsDigit(c)
  {
    (c as int) - ('0' as int)
  }

  function DigitChar(d: nat): (c: char)
    requires d < 10
    ensures IsDigit(c) && DigitValue(c) == d
  {
    (('0' as int) + d) as char
  }

  /** The value of a string of decimal digits, most significant first; `""` is worth 0. */
  function DigitsValue(s: string): nat
    requires AllDigits(s)
    decreases |s|
  {
    if s == [] then 0 else DigitsValue(s[..|s| - 1]) * 10 + DigitValue(s[|s| - 1])
  }

  /** `str(n)` for `n >= 0`: decimal digits without leading zeros. */
  function NatToString(n: nat): (s: string)
    ensures |s| >= 1 && AllDigits(s)
    ensures s[0] == '0' ==> s == "0"
    decreases n
  {
    if n < 10 then [DigitChar(n)] else NatToString(n / 10) + [DigitChar(n % 10)]
  }

  /** The digits `str(n)` writes are worth `n`. */
  lemma {:induction false} NatToStringValue(n: nat)
    ensures DigitsValue(NatToString(n)) == n
    decreases n
  {
    if n >= 10 {
      var s := NatToString(n);
      assert s[..|s| - 1] == NatToString(n / 10);
      NatToStringValue(n / 10);
    }
  }

  /** `str(i)`: a minus sign before the digits of a negative number. */
  function IntToString(i: int): string
  {
    if i < 0 then "-" + NatToString(-i) else NatToString(i)
  }

  /** `str(i)` is a minus sign exactly for negative `i`, followed by decimal digits without leading zeros. */
  lemma IntToStringShape(i: int)
    ensures var s := IntToString(i);
      && |s| >= 1 && (s[0] == '-' <==> i < 0)
      && var digits := if i < 0 then s[1..] else s;
      && |digits| >= 1 && AllDigits(digits) && (digits[0] == '0' ==> i == 0)
  {
    if i < 0 {
      var digits := NatToString(-i);
      assert IntToString(i)[1..] == digits;
    } else {
      var digits := NatToString(i);
      NatToStringValue(i);
      if digits[0] == '0' {
        assert digits == "0";
      }
    }
  }

  /** The characters `int()` skips around a number (the ASCII ones Python counts as white space). */
  const Whitespace: set<char> :=
    {' ', '\t', '\n', '\r', '\U{000B}', '\U{000C}', '\U{001C}', '\U{001D}', '\U{001E}', '\U{001F}'}

  /**
   * `int(text)`: surrounding white space, an optional sign and at least one
   * decimal digit; anything else is a ValueError, modelled as `None`.
   */
  function ParseInt(text: string): Option<int>
  {
    var s := Strip(text, Whitespace);
    ParseSigned(s)
  }

  /** What `int()` accepts once the white space is stripped: an optional sign and at least one digit. */
  function ParseSigned(s: string): Option<int>
  {
    if |s| > 0 && (s[0] == '+' || s[0] == '-') then
      if |s| > 1 && AllDigits(s[1..]) then
        assert IsDigit(s[1..][0]);
        Some(if s[0] == '-' then -(DigitsValue(s[1..]) as int) else DigitsValue(s[1..]))
      else None
    else if |s| > 0 && AllDigits(s) then Some(DigitsValue(s))
    else None
  }

  /** Text without a decimal digit is never a number. */
  lemma ParseIntNeedsDigit(text: string)
    requires forall i | 0 <= i < |text| :: !IsDigit(text[i])
    ensures ParseInt(text) == None
  {
    var l := LStrip(text, Whitespace);
    var s := Strip(text, Whitespace);
    LStripRemovesPrefix(text, Whitespace);
    RStripRemovesSuffix(l, Whitespace);
    forall k | 0 <= k < |s| ensures !IsDigit(s[k]) {
      assert s[k] == l[k] == text[|text| - |l| + k];
    }
    if |s| > 1 {
      assert !IsDigit(s[1..][0]);
    }
  }

  /** `int()` reads a non-empty string of decimal digits as its value. */
  lemma ParseDigits(s: string, n: nat)
    requires |s| > 0 && AllDigits(s) && DigitsValue(s) == n
    ensures ParseInt(s) == Some(n)
  {
    assert IsDigit(s[0]) && IsDigit(s[|s| - 1]);
    StripUnchanged(s, Whitespace);
  }

  /** `int()` reads a minus sign followed by decimal digits as the negated value. */
  lemma ParseNegatedDigits(s: string, n: nat)
    requires |s| > 0 && AllDigits(s) && DigitsValue(s) == n
    ensures ParseInt("-" + s) == Some(-(n as int))
  {
    var t := "-" + s;
    assert t[0] == '-' && t[1..] == s && t[|t| - 1] == s[|s| - 1];
    assert IsDigit(s[|s| - 1]);
    StripUnchanged(t, Whitespace);
    assert ParseSigned(t) == Some(-(n as int));
  }

  /** `int(str(i)) == i`. */
  lemma ParseIntToString(i: int)
    ensures ParseInt(IntToString(i)) == Some(i)
  {
    if i < 0 {
      NatToStringValue(-i);
      ParseNegatedDigits(NatToString(-i), -i);
    } else {
      NatToStringValue(i);
      ParseDigits(NatToString(i), i);
    }
  }

  /** Leading zeros do not change the value of a digit string. */
  lemma {:induction false} LeadingZerosValue(z: nat, s: string)
    requires AllDigits(s)
    ensures AllDigits(Repeat('0', z) + s)
    ensures DigitsValue(Repeat('0', z) + s) == DigitsValue(s)
    decreases |s|, z
  {
    var u := Repeat('0', z) + s;
    if s == [] {
      assert u == Repeat('0', z);
      if z > 0 {
        assert u[..|u| - 1] == Repeat('0', z - 1) + [];
        LeadingZerosValue(z - 1, []);
      }
    } else {
      assert u[..|u| - 1] == Repeat('0', z) + s[..|s| - 1];
      LeadingZerosValue(z, s[..|s| - 1]);
    }
  }

  /** `int()` reads a zero-padded number (as in `"007"`) as the number itself. */
  lemma ParseIntPadded(z: nat, n: nat)
    ensures ParseInt(Repeat('0', z) + NatToString(n)) == Some(n)
  {
    LeadingZerosValue(z, NatToString(n));
    NatToStringValue(n);
    ParseDigits(Repeat('0', z) + NatToString(n), n);
  }
}

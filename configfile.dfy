/** The text of `model.config`: `train` writes `str(max_length)` and `test`
    reads it back with `int(f.read().strip())`. */
module ConfigFile {
  import opened Errors

  predicate IsDigit(c: char)
  {
    '0' <= c <= '9'
  }

  predicate AllDigits(s: string)
  {
    forall i :: 0 <= i < |s| ==> IsDigit(s[i])
  }

  /** The whitespace `str.strip` removes below U+0080: space, tab, line
      feed, vertical tab, form feed, carriage return, and the four
      separators U+001C to U+001F. */
  predicate IsSpace(c: char)
  {
    c == ' ' || 9 <= c as int <= 13 || 28 <= c as int <= 31
  }

  function DigitChar(d: nat): (c: char)
    requires d < 10
    ensures IsDigit(c) && c as int - '0' as int == d
  {
    ('0' as int + d) as char
  }

  /** Decimal digits of `n` without leading zeros. */
  function NatToDecimal(n: nat): (s: string)
    ensures |s| > 0 && AllDigits(s)
    ensures n > 0 ==> s[0] != '0'
  {
    if n < 10 then [DigitChar(n)] else NatToDecimal(n / 10) + [DigitChar(n % 10)]
  }

  /** `str` of a Python integer. */
  function IntToString(n: int): (s: string)
    ensures |s| > 0 && (s[0] == '-' <==> n < 0)
  {
    if n < 0 then "-" + NatToDecimal(-n) else NatToDecimal(n)
  }

  /** The value of a string of decimal digits. */
  function DigitsValue(s: string): nat
    requires AllDigits(s)
  {
    if s == [] then 0 else DigitsValue(s[..|s| - 1]) * 10 + (s[|s| - 1] as int - '0' as int)
  }

  function TrimLeft(s: string): (t: string)
    ensures |t| <= |s| && t == s[|s| - |t|..]
    ensures forall k :: 0 <= k < |s| - |t| ==> IsSpace(s[k])
    ensures t != [] ==> !IsSpace(t[0])
  {
    if s != [] && IsSpace(s[0]) then TrimLeft(s[1..]) else s
  }

  function TrimRight(s: string): (t: string)
    ensures |t| <= |s| && t == s[..|t|]
    ensures forall k :: |t| <= k < |s| ==> IsSpace(s[k])
    ensures t != [] ==> !IsSpace(t[|t| - 1])
  {
    if s != [] && IsSpace(s[|s| - 1]) then TrimRight(s[..|s| - 1]) else s
  }

  /** `t` is the part of `s` that starts at `i`, with only whitespace
      before and after it. */
  predicate WhitespaceAround(s: string, i: int, t: string)
  {
    0 <= i <= |s| - |t| && t == s[i..i + |t|] &&
    (forall k :: 0 <= k < i ==> IsSpace(s[k])) &&
    (forall k :: i + |t| <= k < |s| ==> IsSpace(s[k]))
  }

  /** `str.strip()`: whitespace removed at both ends. The result is the
      part of `s` between a run of leading and a run of trailing
      whitespace, and it neither starts nor ends with whitespace. */
  function Strip(s: string): (t: string)
    ensures t != [] ==> !IsSpace(t[0]) && !IsSpace(t[|t| - 1])
    ensures exists i :: WhitespaceAround(s, i, t)
  {
    StripAround(s);
    TrimRight(TrimLeft(s))
  }

  lemma StripAround(s: string)
    ensures WhitespaceAround(s, |s| - |TrimLeft(s)|, TrimRight(TrimLeft(s)))
  {
    var left := TrimLeft(s);
    var i := |s| - |left|;
    var t := TrimRight(left);
    assert forall k :: 0 <= k < i ==> IsSpace(s[k]);
    SuffixPrefix(s, i, left, t);
    assert WhitespaceAround(s, i, t);
  }

  /** A prefix `t` of the suffix `left` of `s` that starts at `i`, with
      only whitespace after `t` in `left`, has only whitespace after it in `s`. */
  lemma SuffixPrefix(s: string, i: int, left: string, t: string)
    requires 0 <= i <= |s| && left == s[i..]
    requires |t| <= |left| && t == left[..|t|]
    requires forall k :: |t| <= k < |left| ==> IsSpace(left[k])
    ensures t == s[i..i + |t|]
    ensures forall k :: i + |t| <= k < |s| ==> IsSpace(s[k])
  {
    forall k | i + |t| <= k < |s|
      ensures IsSpace(s[k])
    {
      assert s[k] == left[k - i];
    }
  }

  /** `s` without its sign character, if it starts with one. */
  function Unsigned(s: string): string
  {
    if |s| > 0 && (s[0] == '-' || s[0] == '+') then s[1..] else s
  }

  /** `int(s)` on a stripped string: an optional sign, then one or more digits. */
  function ParseInt(s: string): (r: Result<int>)
    ensures r.Ok? <==> Unsigned(s) != [] && AllDigits(Unsigned(s))
    ensures r.Err? ==> r.error == NotAnInteger
    ensures r.Ok? ==> r.value == if s[0] == '-' then 0 - DigitsValue(Unsigned(s)) else DigitsValue(Unsigned(s))
    ensures r.Ok? ==> |s| > 0 && (r.value < 0 ==> s[0] == '-')
  {
    var signed := |s| > 0 && (s[0] == '-' || s[0] == '+');
    var digits := if signed then s[1..] else s;
    if digits == [] || !AllDigits(digits) then Err(NotAnInteger)
    else if signed && s[0] == '-' then Ok(0 - DigitsValue(digits))
    else Ok(DigitsValue(digits))
  }

  /** `str(max_length)` as `train` writes it to `model.config`: an
      optional minus sign and decimal digits, with no whitespace around
      them. It is `IntToString` under the name of its role in the file. */
  function WriteConfig(maxLength: int): (s: string)
    ensures Unsigned(s) != [] && AllDigits(Unsigned(s))
    ensures s[0] == '-' <==> maxLength < 0
    ensures !IsSpace(s[0]) && !IsSpace(s[|s| - 1])
  {
    IntToString(maxLength)
  }

  /** What `test` recovers from the text of the file: a blank file, or
      one holding anything but a signed integer, is a value error. */
  function ReadConfig(text: string): (r: Result<int>)
    ensures r.Err? ==> r.error == NotAnInteger
    ensures (forall i :: 0 <= i < |text| ==> IsSpace(text[i])) ==> r.Err?
  {
    ParseInt(Strip(text))
  }

  lemma {:induction false} DigitsValueOfDecimal(n: nat)
    ensures DigitsValue(NatToDecimal(n)) == n
  {
    if n >= 10 {
      var s := NatToDecimal(n);
      DigitsValueOfDecimal(n / 10);
      assert s[..|s| - 1] == NatToDecimal(n / 10);
    }
  }

  /** A string whose ends are not whitespace is left alone by `strip`. */
  lemma StripNoSpaceEnds(s: string)
    requires s != [] && !IsSpace(s[0]) && !IsSpace(s[|s| - 1])
    ensures Strip(s) == s
  {
  }

  /** The length `test` reads back from `model.config` is the one `train`
      wrote there. */
  lemma ReadWriteConfig(maxLength: int)
    ensures ReadConfig(WriteConfig(maxLength)) == Ok(maxLength)
  {
    var s := IntToString(maxLength);
    var magnitude: nat := if maxLength < 0 then -maxLength else maxLength;
    var digits := NatToDecimal(magnitude);
    DigitsValueOfDecimal(magnitude);
    assert IsDigit(digits[0]) && IsDigit(digits[|digits| - 1]);
    if maxLength < 0 {
      assert s == "-" + digits;
      assert s[1..] == digits;
      assert s[|s| - 1] == digits[|digits| - 1];
      StripNoSpaceEnds(s);
      assert Unsigned(s) == digits;
      assert ParseInt(s) == Ok(0 - magnitude);
    } else {
      assert s == digits;
      StripNoSpaceEnds(s);
      assert Unsigned(s) == digits;
      assert ParseInt(s) == Ok(magnitude);
    }
  }
}

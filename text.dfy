/**
 * The Python 2 string operations the client relies on: `str.strip()`,
 * `str.isdigit()`, `int(str)`, `str(int)` and `str.replace(' ', '')`,
 * restricted to ASCII.
 */
module Text {
  import opened Wrappers

  /** The characters `str.strip()` removes by default. */
  predicate IsSpace(c: char) {
    c == ' ' || c == '\t' || c == '\n' || c == '\r' || c == '\U{000B}' || c == '\U{000C}'
  }

  function TrimStart(s: string): (r: string)
    ensures |r| <= |s|
    ensures r != [] ==> !IsSpace(r[0])
  {
    if s != [] && IsSpace(s[0]) then TrimStart(s[1..]) else s
  }

  /** What `TrimStart` keeps is the end of the text. */
  lemma {:induction false} TrimStartSuffix(s: string)
    ensures TrimStart(s) == s[|s| - |TrimStart(s)|..]
  {
    if s != [] && IsSpace(s[0]) {
      TrimStartSuffix(s[1..]);
    }
  }

  function TrimEnd(s: string): (r: string)
    ensures |r| <= |s| && r == s[..|r|]
    ensures r != [] ==> !IsSpace(r[|r| - 1])
  {
    if s != [] && IsSpace(s[|s| - 1]) then TrimEnd(s[..|s| - 1]) else s
  }

  /** What `TrimStart` removes is whitespace. */
  lemma {:induction false} TrimStartSpaces(s: string)
    ensures forall i :: 0 <= i < |s| - |TrimStart(s)| ==> IsSpace(s[i])
  {
    if s != [] && IsSpace(s[0]) {
      TrimStartSpaces(s[1..]);
      assert forall i :: 1 <= i < |s| ==> s[i] == s[1..][i - 1];
    }
  }

  /** What `TrimEnd` removes is whitespace. */
  lemma {:induction false} TrimEndSpaces(s: string)
    ensures forall i :: |TrimEnd(s)| <= i < |s| ==> IsSpace(s[i])
  {
    if s != [] && IsSpace(s[|s| - 1]) {
      TrimEndSpaces(s[..|s| - 1]);
    }
  }

  /** `s.strip()`: `s` without its leading and trailing whitespace. */
  function Strip(s: string): (r: string)
    ensures |r| <= |s|
    ensures r != [] ==> !IsSpace(r[0]) && !IsSpace(r[|r| - 1])
  {
    TrimEnd(TrimStart(s))
  }

  /** Where the stripped text starts in `s`: after the leading whitespace. */
  function StripStart(s: string): (lo: nat)
    ensures lo <= |s|
  {
    |s| - |TrimStart(s)|
  }

  /** The stripped text is the part of `s` that starts at `StripStart(s)`. */
  lemma {:induction false} StripInfix(s: string)
    ensures StripStart(s) + |Strip(s)| <= |s|
    ensures s[StripStart(s)..StripStart(s) + |Strip(s)|] == Strip(s)
  {
    TrimStartSuffix(s);
    var t := TrimStart(s);
    var r := TrimEnd(t);
    var lo := StripStart(s);
    assert Strip(s) == r;
    assert s[lo..] == t;
    assert s[lo..lo + |r|] == t[..|r|];
  }

  /** Everything of `s` before the stripped text is whitespace. */
  lemma {:induction false} StripLeading(s: string)
    ensures forall i :: 0 <= i < StripStart(s) ==> IsSpace(s[i])
  {
    TrimStartSpaces(s);
  }

  /** Everything of `s` after the stripped text is whitespace. */
  lemma {:induction false} StripTrailing(s: string)
    ensures forall i :: StripStart(s) + |Strip(s)| <= i < |s| ==> IsSpace(s[i])
  {
    TrimStartSuffix(s);
    var t := TrimStart(s);
    var lo := StripStart(s);
    assert |Strip(s)| == |TrimEnd(t)|;
    assert t == s[lo..];
    TrimEndSpaces(t);
    forall i | lo + |Strip(s)| <= i < |s| ensures IsSpace(s[i]) {
      assert s[i] == t[i - lo];
    }
  }

  /** `s` holds some character other than whitespace. */
  predicate HasText(s: string) {
    exists i :: 0 <= i < |s| && !IsSpace(s[i])
  }

  /** The stripped text is empty exactly when the whole text is whitespace. */
  lemma {:induction false} StripEmptyIff(s: string)
    ensures Strip(s) == [] <==> !HasText(s)
  {
    StripInfix(s);
    StripLeading(s);
    StripTrailing(s);
    var lo := StripStart(s);
    var r := Strip(s);
    if r != [] {
      assert s[lo] == r[0];
    }
  }

  predicate IsDigit(c: char) { '0' <= c <= '9' }

  /** `s.isdigit()`: non-empty and made of decimal digits only. */
  predicate IsDigits(s: string) {
    |s| > 0 && forall i :: 0 <= i < |s| ==> IsDigit(s[i])
  }

  function DigitValue(c: char): (d: nat)
    requires IsDigit(c)
    ensures d < 10
  {
    (c as int) - ('0' as int)
  }

  function DigitChar(d: nat): (c: char)
    requires d < 10
    ensures IsDigit(c) && DigitValue(c) == d
  {
    (('0' as int) + d) as char
  }

  /** The number a string of decimal digits denotes (leading zeros allowed, as for `int()`). */
  function DigitsValue(s: string): nat
    requires forall i :: 0 <= i < |s| ==> IsDigit(s[i])
  {
    if s == [] then 0 else 10 * DigitsValue(s[..|s| - 1]) + DigitValue(s[|s| - 1])
  }

  /** `str(n)` for a natural number: its canonical decimal rendering. */
  function DigitString(n: nat): string {
    if n < 10 then [DigitChar(n)] else DigitString(n / 10) + [DigitChar(n % 10)]
  }

  /** The rendering is a string of digits that denotes `n`, with no leading zero. */
  lemma {:induction false} DigitStringValue(n: nat)
    ensures IsDigits(DigitString(n)) && DigitsValue(DigitString(n)) == n
    ensures DigitString(n)[0] == '0' ==> DigitString(n) == "0"
  {
    if n >= 10 {
      DigitStringValue(n / 10);
      var r := DigitString(n);
      assert r[..|r| - 1] == DigitString(n / 10);
    }
  }

  /** `str(i)` for any integer. */
  function IntString(i: int): string {
    if i < 0 then "-" + DigitString(-i) else DigitString(i)
  }

  /** The rendering is non-empty and has no blank or line break; it is all digits exactly when `i` is not negative. */
  lemma {:induction false} IntStringShape(i: int)
    ensures IntString(i) != [] && ' ' !in IntString(i) && '\n' !in IntString(i)
    ensures i >= 0 <==> IsDigits(IntString(i))
  {
    var r := IntString(i);
    if i < 0 {
      DigitStringValue(-i);
      assert !IsDigit(r[0]);
      assert ' ' !in r && '\n' !in r by {
        assert forall k :: 1 <= k < |r| ==> r[k] == DigitString(-i)[k - 1];
      }
    } else {
      DigitStringValue(i);
    }
  }

  /**
   * Python 2's `int(s)` on a string: surrounding whitespace, an optional
   * sign, further whitespace after the sign, decimal digits.
   */
  function PyInt(s: string): Option<int> {
    var t := Strip(s);
    if |t| > 0 && (t[0] == '-' || t[0] == '+') then
      var u := TrimStart(t[1..]);
      if IsDigits(u) then Some(if t[0] == '-' then -(DigitsValue(u) as int) else DigitsValue(u))
      else None
    else if IsDigits(t) then Some(DigitsValue(t))
    else None
  }

  /** `int()` of a string of digits is the number they denote. */
  lemma {:induction false} PyIntOfDigits(d: string)
    requires IsDigits(d)
    ensures PyInt(d) == Some(DigitsValue(d))
  {
    StripOfUnpadded(d);
  }

  /** Leading whitespace in front of a text that does not start with whitespace is what `TrimStart` removes. */
  lemma {:induction false} TrimStartOfPadded(ws: string, d: string)
    requires forall i :: 0 <= i < |ws| ==> IsSpace(ws[i])
    requires d == [] || !IsSpace(d[0])
    ensures TrimStart(ws + d) == d
    decreases |ws|
  {
    if ws != [] {
      assert (ws + d)[1..] == ws[1..] + d;
      TrimStartOfPadded(ws[1..], d);
    }
  }

  /** `int()` of a stripped text that is a sign, whitespace and digits. */
  lemma {:induction false} PyIntOfSigned(s: string, d: string)
    requires Strip(s) == s && |s| > 0 && (s[0] == '-' || s[0] == '+')
    requires IsDigits(d) && TrimStart(s[1..]) == d
    ensures PyInt(s) == Some(if s[0] == '-' then -(DigitsValue(d) as int) else DigitsValue(d))
  {
  }

  /** `int()` of a minus sign, whitespace and digits is the negated number. */
  lemma {:induction false} PyIntOfSpacedNegated(ws: string, d: string, n: nat)
    requires forall i :: 0 <= i < |ws| ==> IsSpace(ws[i])
    requires IsDigits(d) && DigitsValue(d) == n
    ensures PyInt("-" + ws + d) == Some(-(n as int))
  {
    var s := "-" + ws + d;
    assert s[|s| - 1] == d[|d| - 1];
    StripOfUnpadded(s);
    assert s[1..] == ws + d;
    TrimStartOfPadded(ws, d);
    PyIntOfSigned(s, d);
  }

  /** `int()` of a plus sign, whitespace and digits is the number. */
  lemma {:induction false} PyIntOfSpacedPlus(ws: string, d: string)
    requires forall i :: 0 <= i < |ws| ==> IsSpace(ws[i])
    requires IsDigits(d)
    ensures PyInt("+" + ws + d) == Some(DigitsValue(d))
  {
    var s := "+" + ws + d;
    assert s[|s| - 1] == d[|d| - 1];
    StripOfUnpadded(s);
    assert s[1..] == ws + d;
    TrimStartOfPadded(ws, d);
    PyIntOfSigned(s, d);
  }

  /** `int()` of a minus sign and digits is the negated number. */
  lemma {:induction false} PyIntOfNegated(d: string, n: nat)
    requires IsDigits(d) && DigitsValue(d) == n
    ensures PyInt("-" + d) == Some(-(n as int))
  {
    PyIntOfSpacedNegated([], d, n);
    assert "-" + [] + d == "-" + d;
  }

  /** Rendering an integer and reading it back with `int()` gives the integer again. */
  lemma {:induction false} PyIntOfIntString(i: int)
    ensures PyInt(IntString(i)) == Some(i)
  {
    if i < 0 {
      var d := DigitString(-i);
      DigitStringValue(-i);
      PyIntOfNegated(d, -i);
      assert IntString(i) == "-" + d;
    } else {
      var d := DigitString(i);
      DigitStringValue(i);
      PyIntOfDigits(d);
      assert IntString(i) == d;
    }
  }

  /** A string that neither starts nor ends with whitespace is its own `strip()`. */
  lemma {:induction false} StripOfUnpadded(s: string)
    requires s != [] && !IsSpace(s[0]) && !IsSpace(s[|s| - 1])
    ensures Strip(s) == s
  {
    assert TrimStart(s) == s;
    assert TrimEnd(s) == s;
  }

  /** `s.replace(' ', '')`. */
  function RemoveSpaces(s: string): (r: string)
    ensures ' ' !in r
    ensures |r| <= |s|
    ensures ' ' !in s ==> r == s
  {
    if s == [] then []
    else if s[0] == ' ' then RemoveSpaces(s[1..])
    else [s[0]] + RemoveSpaces(s[1..])
  }

  /** Removing the blanks of two texts one after the other is removing them from the concatenation. */
  lemma {:induction false} RemoveSpacesConcat(a: string, b: string)
    ensures RemoveSpaces(a + b) == RemoveSpaces(a) + RemoveSpaces(b)
    decreases |a|
  {
    if a != [] {
      assert (a + b)[0] == a[0];
      assert (a + b)[1..] == a[1..] + b;
      RemoveSpacesConcat(a[1..], b);
    } else {
      assert a + b == b;
    }
  }

  /** A blank disappears, and any other character stays. */
  lemma {:induction false} RemoveSpacesChar(c: char)
    ensures RemoveSpaces([c]) == (if c == ' ' then [] else [c])
  {
    assert [c][1..] == [];
  }

  /** Removing the blanks keeps every other character. */
  lemma {:induction false} RemoveSpacesKeeps(s: string, c: char)
    ensures c in RemoveSpaces(s) <==> c in s && c != ' '
  {
    if s != [] {
      RemoveSpacesKeeps(s[1..], c);
      assert s == [s[0]] + s[1..];
    }
  }
}

/** The JavaScript string built-ins the session logic relies on:
    `String.prototype.trim`, `String.prototype.split` with a one-character
    separator, `Number.prototype.toString` on an integer-valued number and
    the global `parseInt` with no radix argument. */
module Text {

  /** A JavaScript number as far as the session uses one: an integer value or NaN
      (what `parseInt` returns when the text holds no digits). */
  datatype Num = Int(value: int) | NaN

  /** The code points JavaScript counts as WhiteSpace or LineTerminator:
      what `trim` strips and what `parseInt` skips before the number. */
  predicate IsJsSpace(c: char) {
    var n := c as int;
    n == 0x09 || n == 0x0A || n == 0x0B || n == 0x0C || n == 0x0D || n == 0x20 ||
    n == 0xA0 || n == 0x1680 || (0x2000 <= n <= 0x200A) || n == 0x2028 ||
    n == 0x2029 || n == 0x202F || n == 0x205F || n == 0x3000 || n == 0xFEFF
  }

  function TrimStart(s: string): (r: string)
    ensures |r| <= |s|
    ensures r == [] || !IsJsSpace(r[0])
  {
    if s != [] && IsJsSpace(s[0]) then TrimStart(s[1..]) else s
  }

  function TrimEnd(s: string): (r: string)
    ensures |r| <= |s| && (r != [] ==> r[0] == s[0])
    ensures r == [] || !IsJsSpace(r[|r| - 1])
  {
    if s != [] && IsJsSpace(s[|s| - 1]) then TrimEnd(s[..|s| - 1]) else s
  }

  /** `s.trim()`: the text with white space removed from both ends. */
  function Trim(s: string): (r: string)
    ensures |r| <= |s|
    ensures r == [] || (!IsJsSpace(r[0]) && !IsJsSpace(r[|r| - 1]))
  {
    TrimEnd(TrimStart(s))
  }

  /** `TrimStart` drops a prefix, all of it white space. */
  lemma {:induction false} TrimStartSuffix(s: string)
    ensures var r := TrimStart(s);
      r == s[|s| - |r|..] && forall k :: 0 <= k < |s| - |r| ==> IsJsSpace(s[k])
  {
    if s != [] && IsJsSpace(s[0]) {
      TrimStartSuffix(s[1..]);
    }
  }

  /** `TrimEnd` drops a suffix, all of it white space. */
  lemma {:induction false} TrimEndPrefix(s: string)
    ensures var r := TrimEnd(s);
      r == s[..|r|] && forall k :: |r| <= k < |s| ==> IsJsSpace(s[k])
  {
    if s != [] && IsJsSpace(s[|s| - 1]) {
      TrimEndPrefix(s[..|s| - 1]);
    }
  }

  /** What `trim` keeps is a middle slice of `s`: everything before and after it is
      white space, and (by `Trim`'s contract) the slice neither starts nor ends with
      white space. */
  lemma TrimIsSlice(s: string)
    ensures exists i, j ::
              && 0 <= i <= j <= |s| && Trim(s) == s[i..j]
              && (forall k :: 0 <= k < i ==> IsJsSpace(s[k]))
              && (forall k :: j <= k < |s| ==> IsJsSpace(s[k]))
  {
    var t := TrimStart(s);
    TrimStartSuffix(s);
    TrimEndPrefix(t);
    TrimSlice(s, t, TrimEnd(t));
  }

  /** The two halves of `trim` compose into one slice with white space around it. */
  lemma TrimSlice(s: string, t: string, r: string)
    requires |t| <= |s| && t == s[|s| - |t|..] && forall k :: 0 <= k < |s| - |t| ==> IsJsSpace(s[k])
    requires |r| <= |t| && r == t[..|r|] && forall k :: |r| <= k < |t| ==> IsJsSpace(t[k])
    ensures r == s[|s| - |t|..|s| - |t| + |r|]
    ensures forall k :: |s| - |t| + |r| <= k < |s| ==> IsJsSpace(s[k])
  {
    var i := |s| - |t|;
    forall k | i + |r| <= k < |s|
      ensures IsJsSpace(s[k])
    {
      assert s[k] == t[k - i];
    }
  }

  lemma {:induction false} TrimStartAllSpace(s: string)
    ensures TrimStart(s) == [] <==> forall i :: 0 <= i < |s| ==> IsJsSpace(s[i])
  {
    if s != [] && IsJsSpace(s[0]) {
      TrimStartAllSpace(s[1..]);
      assert forall i :: 1 <= i < |s| ==> s[i] == s[1..][i - 1];
    }
  }

  /** `s.trim()` is empty exactly when `s` is empty or made of white space only. */
  lemma TrimEmptyIffAllSpace(s: string)
    ensures Trim(s) == [] <==> forall i :: 0 <= i < |s| ==> IsJsSpace(s[i])
  {
    TrimStartAllSpace(s);
    var t := TrimStart(s);
    if t != [] {
      assert !IsJsSpace(t[0]);
      var r := TrimEnd(t);
      assert r == [] ==> !IsJsSpace(t[0]);
      if r == [] {
        TrimEndKeepsNonSpaceHead(t);
      }
    }
  }

  lemma {:induction false} TrimEndKeepsNonSpaceHead(t: string)
    requires t != [] && !IsJsSpace(t[0])
    ensures TrimEnd(t) != []
  {
    if IsJsSpace(t[|t| - 1]) {
      TrimEndKeepsNonSpaceHead(t[..|t| - 1]);
    }
  }

  /** Text whose ends are not white space is left as it is by `trim`. */
  lemma TrimKeepsTrimmed(s: string)
    requires s == [] || (!IsJsSpace(s[0]) && !IsJsSpace(s[|s| - 1]))
    ensures Trim(s) == s
  {
  }

  /** Number of occurrences of `c` in `s`. */
  function Occurrences(s: string, c: char): nat {
    if s == [] then 0 else (if s[0] == c then 1 else 0) + Occurrences(s[1..], c)
  }

  lemma {:induction false} NoOccurrences(s: string, c: char)
    requires c !in s
    ensures Occurrences(s, c) == 0
  {
    if s != [] {
      assert c !in s[1..] by { assert forall i :: 0 <= i < |s| - 1 ==> s[1..][i] == s[i + 1]; }
      NoOccurrences(s[1..], c);
    }
  }

  /** The parts separated by `sep`, put back together with `sep` between them. */
  function JoinWith(parts: seq<string>, sep: char): string
    requires |parts| >= 1
  {
    if |parts| == 1 then parts[0] else parts[0] + [sep] + JoinWith(parts[1..], sep)
  }

  /** `s.split(sep)` for a one-character separator: one part more than there are
      separators, no part holds the separator, and joining the parts gives `s` back. */
  function Split(s: string, sep: char): (parts: seq<string>)
    ensures |parts| == Occurrences(s, sep) + 1
    ensures forall i :: 0 <= i < |parts| ==> sep !in parts[i]
    ensures JoinWith(parts, sep) == s
  {
    if s == [] then [[]]
    else
      var rest := Split(s[1..], sep);
      if s[0] == sep then
        [[]] + rest
      else
        var head := [s[0]] + rest[0];
        assert JoinWith([head] + rest[1..], sep) == [s[0]] + JoinWith(rest, sep);
        [head] + rest[1..]
  }

  /** One character other than the separator joins the first part of what follows it. */
  lemma SplitCons(c: char, r: string, sep: char)
    requires c != sep
    ensures Split([c] + r, sep) == [[c] + Split(r, sep)[0]] + Split(r, sep)[1..]
  {
    assert ([c] + r)[1..] == r;
  }

  /** A prefix without the separator joins the first part of what follows it. */
  lemma {:induction false} SplitPrefix(a: string, t: string, sep: char)
    requires sep !in a
    ensures Split(a + t, sep) == [a + Split(t, sep)[0]] + Split(t, sep)[1..]
  {
    if a == [] {
      var st := Split(t, sep);
      assert a + t == t && a + st[0] == st[0];
      assert st == [st[0]] + st[1..];
    } else {
      NotInTail(a, sep);
      SplitPrefix(a[1..], t, sep);
      assert a + t == [a[0]] + (a[1..] + t);
      SplitCons(a[0], a[1..] + t, sep);
      assert [a[0]] + (a[1..] + Split(t, sep)[0]) == a + Split(t, sep)[0];
    }
  }

  lemma NotInTail(a: string, c: char)
    requires a != [] && c !in a
    ensures c !in a[1..] && a[0] != c
  {
    assert forall i :: 0 <= i < |a| - 1 ==> a[1..][i] == a[i + 1];
  }

  /** Splitting `a + sep + b`, where neither side holds the separator, gives exactly `[a, b]`. */
  lemma SplitAround(a: string, b: string, sep: char)
    requires sep !in a && sep !in b
    ensures Split(a + [sep] + b, sep) == [a, b]
  {
    NoOccurrences(b, sep);
    var sb := Split(b, sep);
    assert |sb| == 1 && JoinWith(sb, sep) == sb[0];
    assert Split([sep] + b, sep) == [[]] + sb;
    assert a + [sep] + b == a + ([sep] + b);
    SplitPrefix(a, [sep] + b, sep);
    assert a + [] == a;
  }

  /** The value of decimal digit `d` as a character. */
  function DigitChar(d: nat): (c: char)
    requires d < 10
    ensures '0' <= c <= '9'
  {
    "0123456789"[d]
  }

  predicate IsDecimalDigit(c: char) {
    '0' <= c <= '9'
  }

  /** The decimal numeral of `n`, without leading zeros: what `toString` gives for a
      non-negative integer-valued number. */
  function DecimalText(n: nat): (s: string)
    ensures |s| >= 1
    ensures forall i :: 0 <= i < |s| ==> IsDecimalDigit(s[i])
    decreases n
  {
    if n < 10 then [DigitChar(n)] else DecimalText(n / 10) + [DigitChar(n % 10)]
  }

  /** `x.toString()`. */
  function NumberText(x: Num): string {
    match x
    case NaN => "NaN"
    case Int(i) => if i < 0 then "-" + DecimalText(-i) else DecimalText(i)
  }

  /** Value of a character as a digit in radices up to 36, as `parseInt` reads it;
      36 for a character that is no digit at all. */
  function DigitValue(c: char): (v: nat)
    ensures v <= 36
  {
    if '0' <= c <= '9' then (c as int) - ('0' as int)
    else if 'a' <= c <= 'z' then (c as int) - ('a' as int) + 10
    else if 'A' <= c <= 'Z' then (c as int) - ('A' as int) + 10
    else 36
  }

  /** The longest prefix of `s` made of digits of the given radix. */
  function DigitPrefix(s: string, radix: nat): (d: string)
    ensures |d| <= |s| && d == s[..|d|]
  {
    if s != [] && DigitValue(s[0]) < radix then [s[0]] + DigitPrefix(s[1..], radix) else []
  }

  /** The value of a string of digits in the given radix, most significant first. */
  function DigitsValue(s: string, radix: nat): nat {
    if s == [] then 0 else DigitsValue(s[..|s| - 1], radix) * radix + DigitValue(s[|s| - 1])
  }

  /** The digits of `s` in the given radix, or NaN when `s` does not start with one. */
  function DigitsNum(s: string, radix: nat, sign: int): Num {
    var d := DigitPrefix(s, radix);
    if d == [] then NaN else Int(sign * DigitsValue(d, radix))
  }

  /** `parseInt(s)` with no radix: leading white space is skipped, one sign is read,
      then the digits are read as `UnsignedNum` does. */
  function ParseInt(s: string): Num {
    var t := TrimStart(s);
    if t != [] && t[0] == '-' then UnsignedNum(t[1..], -1)
    else if t != [] && t[0] == '+' then UnsignedNum(t[1..], 1)
    else UnsignedNum(t, 1)
  }

  /** The part of `parseInt` after the sign: a `0x`/`0X` prefix selects radix 16,
      otherwise radix 10, then the longest run of digits is read; NaN when it is empty. */
  function UnsignedNum(u: string, sign: int): Num {
    if |u| >= 2 && u[0] == '0' && (u[1] == 'x' || u[1] == 'X') then
      DigitsNum(u[2..], 16, sign)
    else
      DigitsNum(u, 10, sign)
  }

  lemma {:induction false} DigitPrefixAllDigits(s: string)
    requires forall i :: 0 <= i < |s| ==> IsDecimalDigit(s[i])
    ensures DigitPrefix(s, 10) == s
  {
    if s != [] {
      DigitPrefixAllDigits(s[1..]);
    }
  }

  lemma {:induction false} DecimalTextValue(n: nat)
    ensures DigitsValue(DecimalText(n), 10) == n
    decreases n
  {
    var s := DecimalText(n);
    if n >= 10 {
      DecimalTextValue(n / 10);
      assert s[..|s| - 1] == DecimalText(n / 10);
    }
  }

  /** A numeral written by `DecimalText` is read back whole, never as a `0x` prefix. */
  lemma ReadDecimalText(n: nat, sign: int)
    ensures UnsignedNum(DecimalText(n), sign) == Int(sign * n)
  {
    var d := DecimalText(n);
    if |d| >= 2 { assert IsDecimalDigit(d[1]); }
    DigitPrefixAllDigits(d);
    DecimalTextValue(n);
  }

  /** Text that does not start with white space is left as it is by the leading trim. */
  lemma TrimStartKeeps(t: string)
    requires t != [] && !IsJsSpace(t[0])
    ensures TrimStart(t) == t
  {
  }

  lemma ParseIntNaNText()
    ensures ParseInt(NumberText(NaN)) == NaN
  {
    var t := NumberText(NaN);
    TrimStartKeeps(t);
    assert DigitValue(t[0]) == 23;
  }

  lemma ParseIntNegativeText(i: int)
    requires i < 0
    ensures ParseInt(NumberText(Int(i))) == Int(i)
  {
    var d := DecimalText(-i);
    var t := "-" + d;
    assert t == NumberText(Int(i));
    TrimStartKeeps(t);
    assert t[1..] == d;
    ReadDecimalText(-i, -1);
  }

  lemma ParseIntNonNegativeText(i: int)
    requires i >= 0
    ensures ParseInt(NumberText(Int(i))) == Int(i)
  {
    var t := NumberText(Int(i));
    TrimStartKeeps(t);
    ReadDecimalText(i, 1);
  }

  /** `parseInt` reads back what `toString` wrote, for every integer value and for NaN. */
  lemma ParseIntNumberText(x: Num)
    ensures ParseInt(NumberText(x)) == x
  {
    match x
    case NaN => ParseIntNaNText();
    case Int(i) =>
      if i < 0 { ParseIntNegativeText(i); } else { ParseIntNonNegativeText(i); }
  }
}

/**
 * The JavaScript string and number primitives the handlers rely on:
 * whitespace (`\s`, `trim`), decimal rendering, `padStart`, `parseInt`,
 * `Number`, `%`, `split` and regular-expression replacement of whitespace runs.
 */
module Text {
  import opened Wrappers

  /** The characters of the regular-expression class `\s`, which are also the ones `trim` removes. */
  predicate IsSpace(c: char)
  {
    var n := c as int;
    n == 9 || n == 10 || n == 11 || n == 12 || n == 13 || n == 32 || n == 0xA0 || n == 0x1680
    || (0x2000 <= n <= 0x200A) || n == 0x2028 || n == 0x2029 || n == 0x202F || n == 0x205F
    || n == 0x3000 || n == 0xFEFF
  }

  predicate IsDigit(c: char) { '0' <= c <= '9' }
  predicate IsUpper(c: char) { 'A' <= c <= 'Z' }
  predicate IsLower(c: char) { 'a' <= c <= 'z' }
  predicate IsAlnum(c: char) { IsDigit(c) || IsUpper(c) || IsLower(c) }

  /** Whitespace is never a letter or a digit. */
  lemma SpaceNotAlnum(c: char)
    ensures !(IsSpace(c) && IsAlnum(c))
  {
  }

  predicate AllDigits(s: string)
  {
    forall i :: 0 <= i < |s| ==> IsDigit(s[i])
  }

  predicate NoSpace(s: string)
  {
    forall i :: 0 <= i < |s| ==> !IsSpace(s[i])
  }

  // ---------------------------------------------------------------- trim

  /** `trimStart`: the suffix left after dropping every leading whitespace character. */
  function TrimStart(s: string): (r: string)
    ensures |r| <= |s|
    ensures r == [] || !IsSpace(r[0])
    decreases |s|
  {
    if s != [] && IsSpace(s[0]) then TrimStart(s[1..]) else s
  }

  /** What `trimStart` drops is whitespace, and what it keeps is a suffix. */
  lemma {:induction false} TrimStartSuffix(s: string)
    ensures TrimStart(s) == s[|s| - |TrimStart(s)|..]
    ensures forall i :: 0 <= i < |s| - |TrimStart(s)| ==> IsSpace(s[i])
    decreases |s|
  {
    if s != [] && IsSpace(s[0]) {
      TrimStartSuffix(s[1..]);
    }
  }

  /** `trimEnd`: the prefix left after dropping every trailing whitespace character. */
  function TrimEnd(s: string): (r: string)
    ensures |r| <= |s|
    ensures r == [] || !IsSpace(r[|r| - 1])
    decreases |s|
  {
    if s != [] && IsSpace(s[|s| - 1]) then TrimEnd(s[..|s| - 1]) else s
  }

  /** What `trimEnd` drops is whitespace, and what it keeps is a prefix. */
  lemma {:induction false} TrimEndPrefix(s: string)
    ensures TrimEnd(s) == s[..|TrimEnd(s)|]
    ensures forall i :: |TrimEnd(s)| <= i < |s| ==> IsSpace(s[i])
    decreases |s|
  {
    if s != [] && IsSpace(s[|s| - 1]) {
      TrimEndPrefix(s[..|s| - 1]);
    }
  }

  /** `trim`. */
  function Trim(s: string): (r: string)
    ensures |r| <= |s|
    ensures r == [] || (!IsSpace(r[0]) && !IsSpace(r[|r| - 1]))
  {
    var t := TrimStart(s);
    var r := TrimEnd(t);
    TrimEndPrefix(t);
    assert r != [] ==> r[0] == t[0];
    r
  }

  /** `trim` gives the empty string exactly for a string of whitespace. */
  lemma TrimEmptyIff(s: string)
    ensures Trim(s) == [] <==> forall i :: 0 <= i < |s| ==> IsSpace(s[i])
  {
    var t := TrimStart(s);
    TrimStartSuffix(s);
    TrimEndPrefix(t);
    assert t == [] <==> forall i :: 0 <= i < |s| ==> IsSpace(s[i]);
    assert TrimEnd(t) == [] ==> t == [];
  }

  /** A string that does not start with whitespace is its own `trimStart`. */
  lemma TrimStartKeeps(s: string)
    requires s == [] || !IsSpace(s[0])
    ensures TrimStart(s) == s
  {
  }

  /** A string that starts and ends with a non-whitespace character is its own trim. */
  lemma TrimmedAlready(s: string)
    requires s != [] && !IsSpace(s[0]) && !IsSpace(s[|s| - 1])
    ensures TrimStart(s) == s && TrimEnd(s) == s && Trim(s) == s
  {
  }

  lemma TrimIdempotent(s: string)
    ensures Trim(Trim(s)) == Trim(s)
  {
    var r := Trim(s);
    assert TrimStart(r) == r;
    assert TrimEnd(r) == r;
  }

  // ---------------------------------------------------------------- length

  /** The UTF-16 code units of one character: two beyond U+FFFF, one otherwise. */
  function Utf16Units(c: char): (n: nat)
    ensures n == 1 || n == 2
  {
    if c as int >= 0x10000 then 2 else 1
  }

  /** `.length` of a JavaScript string, which counts UTF-16 code units and not characters. */
  function Utf16Length(s: string): (n: nat)
    ensures |s| <= n <= 2 * |s|
    decreases |s|
  {
    if s == [] then 0 else Utf16Units(s[0]) + Utf16Length(s[1..])
  }

  lemma {:induction false} Utf16LengthAppend(a: string, b: string)
    ensures Utf16Length(a + b) == Utf16Length(a) + Utf16Length(b)
    decreases |a|
  {
    if a == [] {
      assert a + b == b;
    } else {
      assert (a + b)[0] == a[0] && (a + b)[1..] == a[1..] + b;
      Utf16LengthAppend(a[1..], b);
    }
  }

  /** A string of characters up to U+FFFF has one code unit per character. */
  lemma {:induction false} Utf16LengthBasic(s: string)
    requires forall i :: 0 <= i < |s| ==> s[i] as int < 0x10000
    ensures Utf16Length(s) == |s|
    decreases |s|
  {
    if s != [] {
      Utf16LengthBasic(s[1..]);
    }
  }

  /** A string of characters beyond U+FFFF (emoji, say) has two code units per character. */
  lemma {:induction false} Utf16LengthAstral(s: string)
    requires forall i :: 0 <= i < |s| ==> s[i] as int >= 0x10000
    ensures Utf16Length(s) == 2 * |s|
    decreases |s|
  {
    if s != [] {
      Utf16LengthAstral(s[1..]);
    }
  }

  lemma {:induction false} TrimStartUnits(s: string)
    ensures Utf16Length(TrimStart(s)) <= Utf16Length(s)
    decreases |s|
  {
    if s != [] && IsSpace(s[0]) {
      TrimStartUnits(s[1..]);
    }
  }

  lemma {:induction false} TrimEndUnits(s: string)
    ensures Utf16Length(TrimEnd(s)) <= Utf16Length(s)
    decreases |s|
  {
    if s != [] && IsSpace(s[|s| - 1]) {
      var init := s[..|s| - 1];
      TrimEndUnits(init);
      assert s == init + [s[|s| - 1]];
      Utf16LengthAppend(init, [s[|s| - 1]]);
    }
  }

  /** Trimming never makes a string longer, counted in code units. */
  lemma TrimUnits(s: string)
    ensures Utf16Length(Trim(s)) <= Utf16Length(s)
  {
    TrimStartUnits(s);
    TrimEndUnits(TrimStart(s));
  }

  /**
   * The UTF-16 code units of one character: the character itself below
   * U+10000, otherwise a high surrogate followed by a low surrogate.
   */
  function CodeUnits(c: char): (r: seq<int>)
    ensures |r| == Utf16Units(c)
    ensures |r| == 2 ==> 0xD800 <= r[0] < 0xDC00 && 0xDC00 <= r[1] < 0xE000
    ensures |r| == 1 ==> r[0] == c as int && !(0xD800 <= r[0] < 0xE000)
  {
    var n := c as int;
    if n < 0x10000 then [n] else [0xD800 + (n - 0x10000) / 0x400, 0xDC00 + (n - 0x10000) % 0x400]
  }

  /** The UTF-16 encoding of a string, one element per code unit. */
  function Utf16(s: string): (r: seq<int>)
    ensures |r| == Utf16Length(s)
    decreases |s|
  {
    if s == [] then [] else CodeUnits(s[0]) + Utf16(s[1..])
  }

  /** Different strings have different encodings. */
  lemma {:induction false} Utf16Injective(a: string, b: string)
    requires Utf16(a) == Utf16(b)
    ensures a == b
    decreases |a|
  {
    if a != [] && b != [] {
      var ua, ub := CodeUnits(a[0]), CodeUnits(b[0]);
      assert Utf16(a) == ua + Utf16(a[1..]) && Utf16(b) == ub + Utf16(b[1..]);
      assert ua[0] == Utf16(a)[0] == ub[0];
      assert |ua| == |ub|;
      if |ua| == 2 {
        assert ua[1] == Utf16(a)[1] == ub[1];
        var n, m := a[0] as int - 0x10000, b[0] as int - 0x10000;
        assert n == (n / 0x400) * 0x400 + n % 0x400 && m == (m / 0x400) * 0x400 + m % 0x400;
      }
      assert a[0] == b[0];
      assert Utf16(a[1..]) == Utf16(a)[|ua|..] == Utf16(b)[|ub|..] == Utf16(b[1..]);
      Utf16Injective(a[1..], b[1..]);
      assert a == [a[0]] + a[1..] && b == [b[0]] + b[1..];
    }
  }

  // ---------------------------------------------------------------- decimal rendering

  function DigitChar(d: nat): (c: char)
    requires d < 10
    ensures IsDigit(c)
  {
    ('0' as int + d) as char
  }

  function DigitValue(c: char): (d: nat)
    requires IsDigit(c)
    ensures d < 10
  {
    (c as int - '0' as int) as nat
  }

  /** `String(n)` for a non-negative integer: decimal, with no leading zero. */
  function NatToString(n: nat): (r: string)
    ensures |r| >= 1 && AllDigits(r)
    ensures r[0] == '0' ==> n == 0 && |r| == 1
    decreases n
  {
    if n < 10 then [DigitChar(n)] else NatToString(n / 10) + [DigitChar(n % 10)]
  }

  /** The value of a string of decimal digits. */
  function DigitsValue(s: string): nat
    requires AllDigits(s)
    decreases |s|
  {
    if s == [] then 0 else DigitsValue(s[..|s| - 1]) * 10 + DigitValue(s[|s| - 1])
  }

  lemma {:induction false} NatToStringValue(n: nat)
    ensures DigitsValue(NatToString(n)) == n
    decreases n
  {
    if n >= 10 {
      NatToStringValue(n / 10);
      var s := NatToString(n);
      assert s[..|s| - 1] == NatToString(n / 10);
    }
  }

  lemma NatToStringInjective(a: nat, b: nat)
    requires NatToString(a) == NatToString(b)
    ensures a == b
  {
    NatToStringValue(a);
    NatToStringValue(b);
  }

  /** `String(i)` for any integer. */
  function IntToString(i: int): (r: string)
    ensures i >= 0 ==> r == NatToString(i)
    ensures i < 0 ==> r == "-" + NatToString(-i)
  {
    if i < 0 then "-" + NatToString(-i) else NatToString(i)
  }

  /** A JavaScript number that is an integer or NaN. */
  datatype Number = Int(v: int) | NaN

  /** `String(x)` for such a number. */
  function NumberToString(x: Number): string
  {
    match x
    case Int(v) => IntToString(v)
    case NaN => "NaN"
  }

  /** `padStart(2, '0')`. */
  function PadStart2(s: string): (r: string)
    ensures |s| >= 2 ==> r == s
    ensures |s| < 2 ==> |r| == 2 && r[2 - |s|..] == s && forall i :: 0 <= i < 2 - |s| ==> r[i] == '0'
  {
    if |s| >= 2 then s else if |s| == 1 then "0" + s else "00"
  }

  /** Two decimal digits for a value below 100. */
  lemma PadStart2Digits(n: nat)
    requires n < 100
    ensures |PadStart2(NatToString(n))| == 2 && AllDigits(PadStart2(NatToString(n)))
  {
  }

  /** A leading zero added by `padStart` does not change the value. */
  lemma PadStart2Value(n: nat)
    requires n < 100
    ensures AllDigits(PadStart2(NatToString(n))) && DigitsValue(PadStart2(NatToString(n))) == n
  {
    NatToStringValue(n);
    var s := NatToString(n);
    if n < 10 {
      var p := PadStart2(s);
      assert p == "0" + s;
      assert p[..1] == "0";
      assert DigitsValue(p[..1]) == 0 by { assert p[..1][..0] == []; }
    }
  }

  /** Distinct integers print differently. */
  lemma IntToStringInjective(a: int, b: int)
    requires IntToString(a) == IntToString(b)
    ensures a == b
  {
    if a >= 0 && b >= 0 {
      NatToStringInjective(a, b);
    } else if a < 0 && b < 0 {
      assert IntToString(a)[1..] == NatToString(-a);
      assert IntToString(b)[1..] == NatToString(-b);
      NatToStringInjective(-a, -b);
    }
  }

  // ---------------------------------------------------------------- arithmetic

  /** JavaScript `%`, whose result takes the sign of the dividend (Dafny's `%` never goes negative). */
  function JsRem(a: int, b: int): (r: int)
    requires b > 0
    ensures a >= 0 ==> r == a % b
    ensures a < 0 ==> r == -((-a) % b)
    ensures -b < r < b
  {
    if a >= 0 then a % b else -((-a) % b)
  }

  // ---------------------------------------------------------------- parsing

  /** Decimal digit or, for radix 16, hexadecimal digit value. */
  function RadixDigit(c: char, radix: nat): Option<nat>
    requires radix == 10 || radix == 16
  {
    if IsDigit(c) then Some(DigitValue(c))
    else if radix == 16 && 'a' <= c <= 'f' then Some(c as int - 'a' as int + 10)
    else if radix == 16 && 'A' <= c <= 'F' then Some(c as int - 'A' as int + 10)
    else None
  }

  /** Length of the longest prefix made of digits in the radix. */
  function DigitPrefixLength(s: string, radix: nat): (n: nat)
    requires radix == 10 || radix == 16
    ensures n <= |s|
    ensures forall i :: 0 <= i < n ==> RadixDigit(s[i], radix).Some?
    ensures n < |s| ==> RadixDigit(s[n], radix).None?
    decreases |s|
  {
    if s != [] && RadixDigit(s[0], radix).Some? then 1 + DigitPrefixLength(s[1..], radix) else 0
  }

  /** Value of a string all of whose characters are digits in the radix. */
  function RadixValue(s: string, radix: nat): nat
    requires radix == 10 || radix == 16
    requires forall i :: 0 <= i < |s| ==> RadixDigit(s[i], radix).Some?
    decreases |s|
  {
    if s == [] then 0 else RadixValue(s[..|s| - 1], radix) * radix + RadixDigit(s[|s| - 1], radix).value
  }

  lemma {:induction false} RadixValueDecimal(s: string)
    requires AllDigits(s)
    ensures RadixValue(s, 10) == DigitsValue(s)
    decreases |s|
  {
    if s != [] { RadixValueDecimal(s[..|s| - 1]); }
  }

  /** The value of the longest digit prefix of s, or None when s starts with no digit. */
  function ParsePrefix(s: string, radix: nat): (r: Option<nat>)
    requires radix == 10 || radix == 16
    ensures r.None? <==> s == [] || RadixDigit(s[0], radix).None?
  {
    var n := DigitPrefixLength(s, radix);
    if n == 0 then None
    else
      assert forall i :: 0 <= i < n ==> s[..n][i] == s[i];
      Some(RadixValue(s[..n], radix))
  }

  /**
   * `parseInt(s)` with no radix: leading whitespace is skipped, one sign is
   * read, a `0x`/`0X` prefix selects radix 16, and the longest digit prefix
   * is the value; no digit at all gives NaN (None).
   */
  function ParseInt(s: string): Option<int>
  {
    var t := TrimStart(s);
    var negative := t != [] && t[0] == '-';
    var u := if t != [] && (t[0] == '-' || t[0] == '+') then t[1..] else t;
    var hex := |u| >= 2 && u[0] == '0' && (u[1] == 'x' || u[1] == 'X');
    var p := if hex then ParsePrefix(u[2..], 16) else ParsePrefix(u, 10);
    match p
    case None => None
    case Some(v) => Some(if negative then -(v as int) else v as int)
  }

  /** A decimal rendering with no whitespace, sign or `0x` prefix parses back to its value. */
  lemma ParseIntDigits(s: string)
    requires |s| >= 1 && AllDigits(s)
    ensures ParseInt(s) == Some(DigitsValue(s) as int)
  {
    assert !IsSpace(s[0]);
    assert IsDigit(s[0]) && s[0] != '-' && s[0] != '+';
    assert !(|s| >= 2 && (s[1] == 'x' || s[1] == 'X')) by { assert |s| >= 2 ==> IsDigit(s[1]); }
    assert TrimStart(s) == s;
    var n := DigitPrefixLength(s, 10);
    assert n == |s|;
    assert s[..n] == s;
    RadixValueDecimal(s);
  }

  lemma ParseIntNatToString(n: nat)
    ensures ParseInt(NatToString(n)) == Some(n)
  {
    ParseIntDigits(NatToString(n));
    NatToStringValue(n);
  }

  /**
   * `Number(s)` for strings that are, after trimming, empty (0) or an
   * optionally signed run of decimal digits; every other string is NaN here.
   */
  function ToNumber(s: string): Number
  {
    var t := Trim(s);
    if t == [] then Int(0)
    else if t[0] == '-' && |t| > 1 && AllDigits(t[1..]) then Int(-(DigitsValue(t[1..]) as int))
    else if t[0] == '+' && |t| > 1 && AllDigits(t[1..]) then Int(DigitsValue(t[1..]))
    else if AllDigits(t) then Int(DigitsValue(t))
    else NaN
  }

  lemma ToNumberDigits(s: string)
    requires |s| >= 1 && AllDigits(s)
    ensures ToNumber(s) == Int(DigitsValue(s))
  {
    assert IsDigit(s[0]) && IsDigit(s[|s| - 1]);
    TrimmedAlready(s);
    assert s[0] != '-' && s[0] != '+';
  }

  lemma ToNumberNatToString(n: nat)
    ensures ToNumber(NatToString(n)) == Int(n)
  {
    ToNumberDigits(NatToString(n));
    NatToStringValue(n);
  }

  // ---------------------------------------------------------------- searching and splitting

  predicate OccursAt(s: string, sep: string, i: int)
  {
    0 <= i && i + |sep| <= |s| && s[i..i + |sep|] == sep
  }

  predicate Contains(s: string, sep: string)
  {
    exists i :: 0 <= i <= |s| - |sep| && OccursAt(s, sep, i)
  }

  /** `indexOf`: the first position where sep occurs. */
  function IndexOf(s: string, sep: string): (r: Option<nat>)
    ensures r.Some? ==> OccursAt(s, sep, r.value) && forall j :: 0 <= j < r.value ==> !OccursAt(s, sep, j)
    ensures r.None? ==> !Contains(s, sep)
    decreases |s|
  {
    if |s| < |sep| then None
    else if s[..|sep|] == sep then Some(0)
    else
      var r := IndexOf(s[1..], sep);
      assert forall j :: 0 < j && OccursAt(s, sep, j) ==> OccursAt(s[1..], sep, j - 1) by {
        forall j | 0 < j && OccursAt(s, sep, j) ensures OccursAt(s[1..], sep, j - 1) {
          assert s[1..][j - 1..j - 1 + |sep|] == s[j..j + |sep|];
        }
      }
      if r.None? then None
      else
        var i := r.value;
        assert OccursAt(s, sep, i + 1) by { assert s[1..][i..i + |sep|] == s[i + 1..i + 1 + |sep|]; }
        Some(i + 1)
  }

  /** `s.split(sep)` for a non-empty separator. */
  function Split(s: string, sep: string): (parts: seq<string>)
    requires |sep| > 0
    ensures |parts| >= 1
    ensures forall k :: 0 <= k < |parts| ==> !Contains(parts[k], sep)
    decreases |s|
  {
    match IndexOf(s, sep)
    case None => [s]
    case Some(i) =>
      assert !Contains(s[..i], sep) by {
        forall j | OccursAt(s[..i], sep, j) ensures false {
          assert s[..i][j..j + |sep|] == s[j..j + |sep|];
          assert OccursAt(s, sep, j);
        }
      }
      [s[..i]] + Split(s[i + |sep|..], sep)
  }

  function Join(parts: seq<string>, sep: string): string
  {
    if |parts| == 0 then "" else if |parts| == 1 then parts[0] else parts[0] + sep + Join(parts[1..], sep)
  }

  lemma {:induction false} JoinSplit(s: string, sep: string)
    requires |sep| > 0
    ensures Join(Split(s, sep), sep) == s
    decreases |s|
  {
    var r := IndexOf(s, sep);
    if r.Some? {
      var i := r.value;
      var rest := s[i + |sep|..];
      var tail := Split(rest, sep);
      assert Split(s, sep) == [s[..i]] + tail;
      JoinSplit(rest, sep);
      assert Join([s[..i]] + tail, sep) == s[..i] + sep + Join(tail, sep) by {
        assert ([s[..i]] + tail)[1..] == tail;
      }
      assert s == s[..i] + sep + rest by { assert s[i..i + |sep|] == sep; }
    }
  }

  /** A string without the separator's first character does not contain it. */
  lemma NoFirstCharNoContains(s: string, sep: string)
    requires |sep| > 0
    requires forall i :: 0 <= i < |s| ==> s[i] != sep[0]
    ensures !Contains(s, sep)
  {
    forall i | 0 <= i <= |s| - |sep| ensures !OccursAt(s, sep, i) {
      assert s[i..i + |sep|][0] == s[i];
    }
  }

  /** Decimal digits contain no separator that starts with another character. */
  lemma DigitsAvoid(s: string, sep: string)
    requires AllDigits(s) && |sep| > 0 && !IsDigit(sep[0])
    ensures !Contains(s, sep)
  {
    NoFirstCharNoContains(s, sep);
  }

  /** A window starting inside `a` reads the same in `a + sep + b` as in `a` and all of sep but its last character. */
  lemma WindowBeforeSeparator(a: string, sep: string, b: string, j: nat)
    requires |sep| > 0 && j < |a|
    ensures j + |sep| <= |a + sep[..|sep| - 1]|
    ensures (a + sep[..|sep| - 1])[j..j + |sep|] == (a + sep + b)[j..j + |sep|]
  {
    var p, s := a + sep[..|sep| - 1], a + sep + b;
    forall x | j <= x < j + |sep|
      ensures p[x] == s[x]
    {
      if x >= |a| {
        assert p[x] == sep[x - |a|] == s[x];
      }
    }
  }

  /** The split of `a + sep + b` when sep first occurs where a ends. */
  lemma SplitCons(a: string, sep: string, b: string)
    requires |sep| > 0
    requires !Contains(a + sep[..|sep| - 1], sep)
    ensures Split(a + sep + b, sep) == [a] + Split(b, sep)
  {
    var s := a + sep + b;
    assert OccursAt(s, sep, |a|) by { assert s[|a|..|a| + |sep|] == sep; }
    forall j | 0 <= j < |a| && OccursAt(s, sep, j) ensures false {
      WindowBeforeSeparator(a, sep, b, j);
      assert OccursAt(a + sep[..|sep| - 1], sep, j);
    }
    assert IndexOf(s, sep) == Some(|a|);
    assert s[..|a|] == a;
    assert s[|a| + |sep|..] == b;
  }

  /** The split of `a + sep + b` when sep first occurs where a ends and b has no sep. */
  lemma SplitAtFirst(a: string, sep: string, b: string)
    requires |sep| > 0
    requires !Contains(a + sep[..|sep| - 1], sep)
    requires !Contains(b, sep)
    ensures Split(a + sep + b, sep) == [a, b]
  {
    var s := a + sep + b;
    assert OccursAt(s, sep, |a|) by { assert s[|a|..|a| + |sep|] == sep; }
    forall j | 0 <= j < |a| && OccursAt(s, sep, j) ensures false {
      WindowBeforeSeparator(a, sep, b, j);
      assert OccursAt(a + sep[..|sep| - 1], sep, j);
    }
    assert IndexOf(s, sep) == Some(|a|);
    assert s[..|a|] == a;
    assert s[|a| + |sep|..] == b;
    assert IndexOf(b, sep) == None;
  }

  /** Splitting two pieces joined by a one-character separator neither holds. */
  lemma SplitPair(a: string, sep: string, b: string)
    requires |sep| == 1 && !Contains(a, sep) && !Contains(b, sep)
    ensures Split(a + sep + b, sep) == [a, b]
  {
    assert a + sep[..0] == a;
    SplitAtFirst(a, sep, b);
  }

  /** Splitting three pieces joined by a one-character separator none holds. */
  lemma SplitTriple(a: string, sep: string, b: string, c: string)
    requires |sep| == 1 && !Contains(a, sep) && !Contains(b, sep) && !Contains(c, sep)
    ensures Split(a + sep + b + sep + c, sep) == [a, b, c]
  {
    var tail := b + sep + c;
    assert sep[..|sep| - 1] == [];
    assert a + sep[..|sep| - 1] == a;
    assert b + sep[..|sep| - 1] == b;
    SplitAtFirst(b, sep, c);
    SplitCons(a, sep, tail);
    assert a + sep + b + sep + c == a + sep + tail;
    assert [a] + [b, c] == [a, b, c];
  }

  // ---------------------------------------------------------------- case and whitespace

  /** `toLowerCase` on ASCII letters; every other character is kept. */
  function ToLowerAscii(s: string): (r: string)
    ensures |r| == |s|
    ensures forall i :: 0 <= i < |s| ==> r[i] == (if IsUpper(s[i]) then (s[i] as int + 32) as char else s[i])
  {
    seq(|s|, i requires 0 <= i < |s| => if IsUpper(s[i]) then (s[i] as int + 32) as char else s[i])
  }

  /** `s.replace(/\s+/g, c)`: each maximal run of whitespace becomes one c. */
  function ReplaceSpaceRuns(s: string, c: char): (r: string)
    requires !IsSpace(c)
    ensures NoSpace(r)
    ensures NoSpace(s) ==> r == s
    ensures r == [] <==> s == []
    ensures s != [] && !IsSpace(s[0]) ==> r[0] == s[0]
    decreases |s|
  {
    if s == [] then []
    else if IsSpace(s[0]) then [c] + ReplaceSpaceRuns(TrimStart(s[1..]), c)
    else [s[0]] + ReplaceSpaceRuns(s[1..], c)
  }

  lemma ReplaceAtSpace(s: string, c: char)
    requires !IsSpace(c) && s != [] && IsSpace(s[0])
    ensures ReplaceSpaceRuns(s, c) == [c] + ReplaceSpaceRuns(TrimStart(s[1..]), c)
  {
  }

  lemma ReplaceAtOther(s: string, c: char)
    requires !IsSpace(c) && s != [] && !IsSpace(s[0])
    ensures ReplaceSpaceRuns(s, c) == [s[0]] + ReplaceSpaceRuns(s[1..], c)
  {
  }

  /**
   * Every character the replacement produces is c or a non-whitespace
   * character of s, so a class that holds of both holds of the result.
   */
  lemma {:induction false} ReplaceSpaceRunsKeeps(s: string, c: char, P: char -> bool)
    requires !IsSpace(c) && P(c)
    requires forall i :: 0 <= i < |s| && !IsSpace(s[i]) ==> P(s[i])
    ensures forall i :: 0 <= i < |ReplaceSpaceRuns(s, c)| ==> P(ReplaceSpaceRuns(s, c)[i])
    decreases |s|
  {
    if s != [] {
      var head := if IsSpace(s[0]) then c else s[0];
      var t := if IsSpace(s[0]) then TrimStart(s[1..]) else s[1..];
      if IsSpace(s[0]) {
        TrimStartSuffix(s[1..]);
      }
      forall i | 0 <= i < |t| && !IsSpace(t[i]) ensures P(t[i]) {
        assert t[i] == s[|s| - |t| + i];
      }
      ReplaceSpaceRunsKeeps(t, c, P);
      if IsSpace(s[0]) {
        ReplaceAtSpace(s, c);
      } else {
        ReplaceAtOther(s, c);
      }
      var r := ReplaceSpaceRuns(s, c);
      assert r == [head] + ReplaceSpaceRuns(t, c);
      forall i | 0 <= i < |r| ensures P(r[i]) {
        if i > 0 {
          assert r[i] == ReplaceSpaceRuns(t, c)[i - 1];
        }
      }
    }
  }
}
